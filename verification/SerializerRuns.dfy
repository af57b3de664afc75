/** Whole runs of the serializer, over one buffer and over many. */
module SerializerRuns {
  import opened Common
  import opened SerialTree
  import opened Serializer

  datatype Status = Done | Waiting | Failed

  datatype Outcome = Outcome(status: Status, state: State, out: seq<nat>)

  const IDLE: State := State(Empty, Empty)

  function Before(out: seq<nat>, r: Outcome): Outcome {
    r.(out := out + r.out)
  }

  lemma StepRoom(s: State, room: nat, fmt: Format)
    requires s.fstk.Push? && MeaningOf(s, fmt).Means?
    ensures match Step(s, room, fmt)
            case Next(_, out) => |out| <= room
            case Wait(_, out) => |out| == room
            case Fail => true
  {
  }

  /** SerializerBase::run over a buffer with `room` bytes */
  function Run(s: State, room: nat, fmt: Format): Outcome
    requires MeaningOf(s, fmt).Means?
    decreases MeaningOf(s, fmt).work
  {
    if s.fstk.Empty? then Outcome(Done, s, [])
    else
      StepSound(s, room, fmt);
      StepRoom(s, room, fmt);
      match Step(s, room, fmt)
      case Next(t, out) => Before(out, Run(t, room - |out|, fmt))
      case Wait(t, out) => Outcome(Waiting, t, out)
      case Fail => Outcome(Failed, s, [])
  }

  lemma {:induction false} RunMeans(s: State, room: nat, fmt: Format)
    requires MeaningOf(s, fmt).Means?
    ensures var m, r := MeaningOf(s, fmt), Run(s, room, fmt);
            match r.status
            case Done => r.state == IDLE && m.rest == r.out && m.fits && |r.out| <= room
            case Waiting =>
              && Follows(m, MeaningOf(r.state, fmt), r.out)
              && MeaningOf(r.state, fmt).rest != [] && |r.out| == room
            case Failed => !m.fits
    decreases MeaningOf(s, fmt).work
  {
    if s.fstk.Push? {
      StepSound(s, room, fmt);
      StepRoom(s, room, fmt);
      match Step(s, room, fmt)
      case Next(t, out) =>
        RunMeans(t, room - |out|, fmt);
        var r := Run(t, room - |out|, fmt);
        if r.status.Waiting? { Regroup(out, r.out, MeaningOf(r.state, fmt).rest); }
      case Wait(t, out) =>
      case Fail =>
    }
  }

  lemma IdleMeans(fmt: Format)
    ensures MeaningOf(IDLE, fmt) == Means([], true, 0)
  {
  }

  lemma RunBefore(a: seq<nat>, b: seq<nat>, r: Outcome)
    ensures Before(a, Before(b, r)) == Before(a + b, r)
  {
    Regroup(a, b, r.out);
  }

  /** One turn of the run loop, after `out` was written: what the whole run still comes to */
  lemma Turn(whole: Outcome, out: seq<nat>, s: State, room: nat, fmt: Format)
    requires s.fstk.Push? && MeaningOf(s, fmt).Means? && whole == Before(out, Run(s, room, fmt))
    ensures var r := Step(s, room, fmt);
            && (r.Next? ==>
                  && MeaningOf(r.state, fmt).Means? && MeaningOf(r.state, fmt).work < MeaningOf(s, fmt).work
                  && |r.out| <= room && whole == Before(out + r.out, Run(r.state, room - |r.out|, fmt)))
            && (r.Wait? ==> whole == Outcome(Waiting, r.state, out + r.out))
            && (r.Fail? ==> whole == Outcome(Failed, s, out))
  {
    StepSound(s, room, fmt);
    StepRoom(s, room, fmt);
    var r := Step(s, room, fmt);
    if r.Next? { RunBefore(out, r.out, Run(r.state, room - |r.out|, fmt)); }
    if r.Fail? { assert out + [] == out; }
  }

  /** After `out` was written into a buffer with `room` bytes, the run that comes to `whole` goes on from `s`. */
  ghost predicate GoesOn(whole: Outcome, out: seq<nat>, s: State, room: nat, fmt: Format) {
    MeaningOf(s, fmt).Means? && |out| <= room && whole == Before(out, Run(s, room - |out|, fmt))
  }

  ghost function Work(s: State, fmt: Format): nat {
    if MeaningOf(s, fmt).Means? then MeaningOf(s, fmt).work else 0
  }

  /** The call of the top task that came to `r`, from `s` */
  ghost predicate Called(whole: Outcome, out: seq<nat>, s: State, room: nat, fmt: Format, r: Result) {
    match r
    case Next(t, more) => GoesOn(whole, out + more, t, room, fmt) && Work(t, fmt) < Work(s, fmt)
    case Wait(t, more) => whole == Outcome(Waiting, t, out + more)
    case Fail => whole == Outcome(Failed, s, out)
  }

  lemma GoesOnTurn(whole: Outcome, out: seq<nat>, s: State, room: nat, fmt: Format)
    requires GoesOn(whole, out, s, room, fmt) && s.fstk.Push?
    ensures Called(whole, out, s, room, fmt, Step(s, room - |out|, fmt))
  {
    Turn(whole, out, s, room - |out|, fmt);
    CalledWith(whole, out, s, room, fmt, Step(s, room - |out|, fmt));
  }

  lemma CalledWith(whole: Outcome, out: seq<nat>, s: State, room: nat, fmt: Format, r: Result)
    requires |out| <= room && MeaningOf(s, fmt).Means?
    requires r.Next? ==>
               && MeaningOf(r.state, fmt).Means? && MeaningOf(r.state, fmt).work < MeaningOf(s, fmt).work
               && |r.out| <= room - |out| && whole == Before(out + r.out, Run(r.state, room - |out| - |r.out|, fmt))
    requires r.Wait? ==> whole == Outcome(Waiting, r.state, out + r.out)
    requires r.Fail? ==> whole == Outcome(Failed, s, out)
    ensures Called(whole, out, s, room, fmt, r)
  {
    assert r.Next? ==> room - |out| - |r.out| == room - |out + r.out|;
  }

  lemma GoesOnFirst(s: State, room: nat, fmt: Format)
    requires MeaningOf(s, fmt).Means?
    ensures GoesOn(Run(s, room, fmt), [], s, room, fmt)
  {
    BeforeNothing(Run(s, room, fmt));
  }

  lemma BeforeNothing(r: Outcome)
    ensures Before([], r) == r
  {
    assert [] + r.out == r.out;
  }

  lemma GoesOnLast(whole: Outcome, out: seq<nat>, s: State, room: nat, fmt: Format)
    requires GoesOn(whole, out, s, room, fmt) && s.fstk.Empty?
    ensures whole == Outcome(Done, s, out)
  {
    assert out + [] == out;
  }

  // ---- One buffer after another

  /** The caller's loop: run over one buffer after the other until nothing is left or something fails. */
  function RunAll(s: State, rooms: seq<nat>, fmt: Format): Outcome
    requires MeaningOf(s, fmt).Means?
    decreases |rooms|
  {
    if rooms == [] then Outcome(Waiting, s, [])
    else
      RunMeans(s, rooms[0], fmt);
      var r := Run(s, rooms[0], fmt);
      if r.status.Waiting? then Before(r.out, RunAll(r.state, rooms[1..], fmt)) else r
  }

  lemma {:induction false} RunAllMeans(s: State, rooms: seq<nat>, fmt: Format)
    requires MeaningOf(s, fmt).Means? && MeaningOf(s, fmt).fits
    ensures var m, r := MeaningOf(s, fmt), RunAll(s, rooms, fmt);
            && r.out == Prefix(m.rest, Total(rooms))
            && (r.status.Done? || r.status.Waiting?)
            && (r.status.Done? <==> rooms != [] && |m.rest| <= Total(rooms))
            && (r.status.Done? ==> r.state == IDLE)
    decreases |rooms|
  {
    if rooms != [] {
      RunMeans(s, rooms[0], fmt);
      var r := Run(s, rooms[0], fmt);
      if r.status.Waiting? {
        var rest := MeaningOf(r.state, fmt).rest;
        RunAllMeans(r.state, rooms[1..], fmt);
        PrefixJoin(r.out, rest, Total(rooms[1..]));
      }
    }
  }

  lemma Scheduled(v: Value, fmt: Format)
    ensures MeaningOf(Schedule(v, IDLE), fmt) == Means(Encode(v, fmt), Within(v, fmt), Cost(v))
  {
    ScheduleAdds(v, IDLE, fmt);
    assert MeaningOf(IDLE, fmt) == Means([], true, 0);
    assert Encode(v, fmt) + [] == Encode(v, fmt);
  }

  /** For every tree within the limits and every sequence of buffer sizes the bytes written are the recursive
      encoding, cut where the buffers end; it is done exactly when they hold it all, and then both stacks
      are empty, as run asserts. */
  lemma WritesEncoding(v: Value, rooms: seq<nat>, fmt: Format)
    requires Within(v, fmt)
    ensures MeaningOf(Schedule(v, IDLE), fmt).Means?
    ensures var r := RunAll(Schedule(v, IDLE), rooms, fmt);
            && r.out == Prefix(Encode(v, fmt), Total(rooms))
            && (r.status.Done? <==> rooms != [] && |Encode(v, fmt)| <= Total(rooms))
            && (r.status.Done? ==> r.state == IDLE)
            && !r.status.Failed?
  {
    Scheduled(v, fmt);
    RunAllMeans(Schedule(v, IDLE), rooms, fmt);
  }

  /** With room for everything a run ends, and it fails exactly when some sequence in the tree has more elements than
      the container limit, or too many for a checked size. */
  lemma FailsExactlyOverLimits(v: Value, room: nat, fmt: Format)
    requires |Encode(v, fmt)| <= room
    ensures MeaningOf(Schedule(v, IDLE), fmt).Means?
    ensures Run(Schedule(v, IDLE), room, fmt).status == if Over(Sizes(v), fmt) then Failed else Done
  {
    WithinIs(v, fmt);
    Scheduled(v, fmt);
    RunMeans(Schedule(v, IDLE), room, fmt);
  }

  // ---- Back to where it started

  /** From `s`, with enough room, a run writes `out` and goes on as from `t`. */
  ghost predicate Goes(s: State, out: seq<nat>, t: State, fmt: Format) {
    && MeaningOf(s, fmt).Means? && MeaningOf(t, fmt).Means?
    && forall room: nat :: GoesWith(s, out, t, room, fmt)
  }

  predicate GoesWith(s: State, out: seq<nat>, t: State, room: nat, fmt: Format)
    requires MeaningOf(s, fmt).Means? && MeaningOf(t, fmt).Means?
  {
    Run(s, |out| + room, fmt) == Before(out, Run(t, room, fmt))
  }

  lemma GoOn(s: State, a: seq<nat>, t: State, b: seq<nat>, u: State, c: seq<nat>, fmt: Format)
    requires Goes(s, a, t, fmt) && Goes(t, b, u, fmt) && c == a + b
    ensures Goes(s, c, u, fmt)
  {
    forall room: nat ensures GoesWith(s, c, u, room, fmt) {
      assert GoesWith(s, a, t, |b| + room, fmt) && GoesWith(t, b, u, room, fmt);
      Regroup(a, b, Run(u, room, fmt).out);
    }
  }

  predicate StepsTo(s: State, out: seq<nat>, t: State, room: nat, fmt: Format)
    requires s.fstk.Push? && MeaningOf(s, fmt).Means?
  {
    Step(s, |out| + room, fmt) == Next(t, out)
  }

  lemma StepGoes(s: State, out: seq<nat>, t: State, fmt: Format)
    requires s.fstk.Push? && MeaningOf(s, fmt).Means? && forall room: nat :: StepsTo(s, out, t, room, fmt)
    ensures Goes(s, out, t, fmt)
  {
    StepSound(s, |out|, fmt);
    assert StepsTo(s, out, t, 0, fmt);
    forall room: nat ensures GoesWith(s, out, t, room, fmt) { assert StepsTo(s, out, t, room, fmt); }
  }

  /** A word is written and taken off the second stack again. */
  lemma WordGoes(w: nat, second: nat, f: Stack<Task>, e: Stack<Ext>, fmt: Format)
    requires Meant(f, e, fmt).Means?
    ensures Goes(WordFirst(w, second, f, e), fmt.cross(w), State(f, e), fmt)
  {
    var b := fmt.cross(w);
    var s := WordFirst(w, second, f, e);
    WordFirstMeans(w, second, f, e, fmt);
    var t := State(s.fstk.below, s.estk);
    StepGoes(s, b, t, fmt);
    StepGoes(t, [], State(f, e), fmt);
    GoOn(s, b, t, [], State(f, e), b, fmt);
  }

  /** Counting through a sequence at element `k`, over the stacks of `s` */
  function At(isArray: bool, items: seq<Value>, k: nat, s: State): State {
    if isArray then State(Push(ArrayNext(items), s.fstk), Push(Words(|items|, k), s.estk))
    else State(Push(ContainerNext(items), s.fstk), Push(Iter(k), s.estk))
  }

  lemma AtMeans(isArray: bool, items: seq<Value>, k: nat, s: State, fmt: Format)
    requires k <= |items|
    ensures MeaningOf(At(isArray, items, k, s), fmt) == Counting(items[k..], MeaningOf(s, fmt), fmt)
  {
  }

  lemma AtGoes(isArray: bool, items: seq<Value>, k: nat, s: State, fmt: Format)
    requires k <= |items| && MeaningOf(s, fmt).Means?
    ensures Goes(At(isArray, items, k, s), [],
                 if k < |items| then Schedule(items[k], At(isArray, items, k + 1, s)) else s, fmt)
  {
    AtMeans(isArray, items, k, s, fmt);
    StepGoes(At(isArray, items, k, s), [],
             if k < |items| then Schedule(items[k], At(isArray, items, k + 1, s)) else s, fmt);
  }

  lemma {:induction false} ElementsGo(isArray: bool, items: seq<Value>, k: nat, s: State, fmt: Format)
    requires MeaningOf(s, fmt).Means? && k <= |items| && AllWithin(items[k..], fmt)
    ensures Goes(At(isArray, items, k, s), EncodeAll(items[k..], fmt), s, fmt)
    decreases items, |items| - k
  {
    AtGoes(isArray, items, k, s, fmt);
    if k == |items| {
      assert items[k..] == [];
    } else {
      Tails(items, k, fmt);
      var head, tail := Encode(items[k], fmt), EncodeAll(items[k + 1..], fmt);
      var next := At(isArray, items, k + 1, s);
      AtMeans(isArray, items, k + 1, s, fmt);
      ElementsGo(isArray, items, k + 1, s, fmt);
      ValueGoes(items[k], next, fmt);
      GoOn(Schedule(items[k], next), head, next, tail, s, head + tail, fmt);
      GoOn(At(isArray, items, k, s), [], Schedule(items[k], next), head + tail, s, head + tail, fmt);
    }
  }

  lemma SequenceGoes(isArray: bool, items: seq<Value>, s: State, fmt: Format)
    requires MeaningOf(s, fmt).Means? && Within(Sequence(isArray, items), fmt)
    ensures Goes(Schedule(Sequence(isArray, items), s), Encode(Sequence(isArray, items), fmt), s, fmt)
    decreases items, |items| + 1
  {
    var v := Sequence(isArray, items);
    ScheduleAdds(v, s, fmt);
    assert items[0..] == items;
    var w, tail := fmt.word(|items|), EncodeAll(items, fmt);
    var b := fmt.cross(w);
    var at := At(isArray, items, 0, s);
    var first := WordFirst(w, 0, at.fstk, at.estk);
    ElementsGo(isArray, items, 0, s, fmt);
    WordGoes(w, 0, at.fstk, at.estk, fmt);
    StepGoes(Schedule(v, s), [], first, fmt);
    GoOn(first, b, at, tail, s, b + tail, fmt);
    GoOn(Schedule(v, s), [], first, b + tail, s, b + tail, fmt);
  }

  lemma NullGoes(isArray: bool, s: State, fmt: Format)
    requires MeaningOf(s, fmt).Means?
    ensures Goes(Schedule(Null(isArray), s), Encode(Null(isArray), fmt), s, fmt)
  {
    ScheduleAdds(Null(isArray), s, fmt);
    var b := fmt.cross(fmt.nullWord);
    var first := WordFirst(fmt.nullWord, 0, s.fstk, s.estk);
    WordGoes(fmt.nullWord, 0, s.fstk, s.estk, fmt);
    StepGoes(Schedule(Null(isArray), s), [], first, fmt);
    GoOn(Schedule(Null(isArray), s), [], first, b, s, b, fmt);
  }

  /** A value scheduled over any stacks is written whole, and the run goes on from exactly those stacks:
      both are back at the depth, and at the contents, they had before the value was scheduled. */
  lemma {:induction false} ValueGoes(v: Value, s: State, fmt: Format)
    requires MeaningOf(s, fmt).Means? && Within(v, fmt)
    ensures Goes(Schedule(v, s), Encode(v, fmt), s, fmt)
    decreases v, 0
  {
    match v
    case Leaf(b) => StepGoes(Schedule(v, s), b, s, fmt);
    case Pair(x, y) =>
      ScheduleAdds(y, s, fmt);
      var t := Schedule(y, s);
      ValueGoes(x, t, fmt);
      ValueGoes(y, s, fmt);
      GoOn(Schedule(x, t), Encode(x, fmt), t, Encode(y, fmt), s, Encode(v, fmt), fmt);
    case Sequence(isArray, items) => SequenceGoes(isArray, items, s, fmt);
    case Null(isArray) => NullGoes(isArray, s, fmt);
  }
}
