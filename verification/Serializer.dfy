/**
 The serializer: a stack of callbacks and a stack of data they need, worked off into a buffer of limited
 room. Every step is one call of the top task.
 */
module Serializer {
  import opened Common
  import opened SerialTree

  datatype Task =
    | Emit(bytes: seq<nat>)
    | EmitTop
    | PopExt
    | StoreContainer(items: seq<Value>)
    | StoreNullContainer
    | ContainerNext(items: seq<Value>)
    | StoreArray(items: seq<Value>)
    | StoreNullArray
    | ArrayNext(items: seq<Value>)

  /** An entry of the second stack: two words, or an iterator into a container */
  datatype Ext = Words(first: nat, second: nat) | Iter(pos: nat)

  datatype State = State(fstk: Stack<Task>, estk: Stack<Ext>)

  /** Scheduling a value: push, pushContainer, pushArray; a pair is scheduled second part first. */
  function Schedule(v: Value, s: State): State
    decreases v
  {
    match v
    case Leaf(b) => State(Push(Emit(b), s.fstk), s.estk)
    case Pair(a, b) => Schedule(a, Schedule(b, s))
    case Sequence(isArray, items) =>
      if isArray then State(Push(StoreArray(items), s.fstk), Push(Words(|items|, 0), s.estk))
      else State(Push(StoreContainer(items), s.fstk), s.estk)
    case Null(isArray) =>
      if isArray then State(Push(StoreNullArray, s.fstk), Push(Words(0, 0), s.estk))
      else State(Push(StoreNullContainer, s.fstk), s.estk)
  }

  // ---- What a state means

  function Cost(v: Value): nat
    decreases v
  {
    match v
    case Leaf(_) => 1
    case Pair(a, b) => Cost(a) + Cost(b)
    case Sequence(_, items) => 4 + Costs(items)
    case Null(_) => 3
  }

  function Costs(items: seq<Value>): nat
    decreases items
  {
    if items == [] then 0 else Cost(items[0]) + 1 + Costs(items[1..])
  }

  /** The bytes still to be written, whether all of it is within the limit, and the steps it takes at most;
      Broken where a task does not find the data it needs on the second stack or something is left there. */
  datatype Meaning = Broken | Means(rest: seq<nat>, fits: bool, work: nat)

  function Plus(bytes: seq<nat>, fits: bool, work: nat, m: Meaning): Meaning {
    match m
    case Broken => Broken
    case Means(r, f, w) => Means(bytes + r, fits && f, work + w)
  }

  function Meant(f: Stack<Task>, e: Stack<Ext>, fmt: Format): Meaning
    decreases f
  {
    match f
    case Empty => if e.Empty? then Means([], true, 0) else Broken
    case Push(t, below) =>
      match t
      case Emit(b) => Plus(b, true, 1, Meant(below, e, fmt))
      case EmitTop =>
        if e.Push? && e.top.Words? then Plus(fmt.cross(e.top.first), true, 1, Meant(below, e, fmt))
        else Broken
      case PopExt => if e.Push? then Plus([], true, 1, Meant(below, e.below, fmt)) else Broken
      case StoreContainer(items) => Sized(false, items, Meant(below, e, fmt), fmt)
      case StoreNullContainer => Plus(fmt.cross(fmt.nullWord), true, 3, Meant(below, e, fmt))
      case ContainerNext(items) =>
        if e.Push? && e.top.Iter? && e.top.pos <= |items|
        then Counting(items[e.top.pos..], Meant(below, e.below, fmt), fmt) else Broken
      case StoreArray(items) =>
        if e.Push? && e.top == Words(|items|, 0) then Sized(true, items, Meant(below, e.below, fmt), fmt) else Broken
      case StoreNullArray =>
        if e.Push? && e.top.Words? then Plus(fmt.cross(fmt.nullWord), true, 3, Meant(below, e.below, fmt)) else Broken
      case ArrayNext(items) =>
        if e.Push? && e.top.Words? && e.top.first == |items| && e.top.second <= |items|
        then Counting(items[e.top.second..], Meant(below, e.below, fmt), fmt) else Broken
  }

  function Sized(isArray: bool, items: seq<Value>, m: Meaning, fmt: Format): Meaning {
    Plus(Encode(Sequence(isArray, items), fmt), Within(Sequence(isArray, items), fmt), 4 + Costs(items), m)
  }

  function Counting(items: seq<Value>, m: Meaning, fmt: Format): Meaning {
    Plus(EncodeAll(items, fmt), AllWithin(items, fmt), 1 + Costs(items), m)
  }

  function MeaningOf(s: State, fmt: Format): Meaning {
    Meant(s.fstk, s.estk, fmt)
  }

  // ---- Steps

  datatype Result = Next(state: State, out: seq<nat>) | Wait(state: State, out: seq<nat>) | Fail

  /** Writing bytes into what room is left; the rest stays scheduled. */
  function Write(b: seq<nat>, f: Stack<Task>, e: Stack<Ext>, room: nat): Result {
    if |b| <= room then Next(State(f, e), b) else Wait(State(Push(Emit(b[room..]), f), e), b[..room])
  }

  /** A word on the second stack with the two tasks that write it and take it away */
  function WordFirst(w: nat, second: nat, f: Stack<Task>, e: Stack<Ext>): State {
    State(Push(EmitTop, Push(PopExt, f)), Push(Words(w, second), e))
  }

  /** The size of a sequence goes out first. */
  function Begin(next: Task, n: nat, f: Stack<Task>, e: Stack<Ext>, fmt: Format): Result {
    if !Allowed(n, fmt) then Fail else Next(WordFirst(fmt.word(n), 0, Push(next, f), e), [])
  }

  function Step(s: State, room: nat, fmt: Format): Result
    requires s.fstk.Push? && MeaningOf(s, fmt).Means?
  {
    var f, e := s.fstk.below, s.estk;
    match s.fstk.top
    case Emit(b) => Write(b, f, e, room)
    case EmitTop => Write(fmt.cross(e.top.first), f, e, room)
    case PopExt => Next(State(f, e.below), [])
    case StoreContainer(items) => Begin(ContainerNext(items), |items|, f, Push(Iter(0), e), fmt)
    case StoreNullContainer => Next(WordFirst(fmt.nullWord, 0, f, e), [])
    case ContainerNext(items) =>
      var k := e.top.pos;
      if k < |items| then Next(Schedule(items[k], State(s.fstk, Push(Iter(k + 1), e.below))), [])
      else Next(State(f, e.below), [])
    case StoreArray(items) => Begin(ArrayNext(items), e.top.first, f, e, fmt)
    case StoreNullArray => Next(WordFirst(fmt.nullWord, e.top.second, f, e.below), [])
    case ArrayNext(items) =>
      var k := e.top.second;
      if k < e.top.first then Next(Schedule(items[k], State(s.fstk, Push(Words(e.top.first, k + 1), e.below))), [])
      else Next(State(f, e.below), [])
  }

  // ---- What one step keeps

  /** After a step that writes `out`: the same bytes in the end, and the same answer whether it all fits */
  predicate Follows(m: Meaning, t: Meaning, out: seq<nat>) {
    m.Means? && t.Means? && m.rest == out + t.rest && m.fits == t.fits
  }

  predicate Sound(m: Meaning, r: Result, fmt: Format) {
    match r
    case Next(t, out) => Follows(m, MeaningOf(t, fmt), out) && MeaningOf(t, fmt).work < m.work
    case Wait(t, out) => Follows(m, MeaningOf(t, fmt), out) && MeaningOf(t, fmt).rest != []
    case Fail => m.Means? && !m.fits
  }

  /** Scheduling a value puts its encoding before what was still to be written. */
  lemma {:induction false} ScheduleAdds(v: Value, s: State, fmt: Format)
    ensures MeaningOf(Schedule(v, s), fmt) == Plus(Encode(v, fmt), Within(v, fmt), Cost(v), MeaningOf(s, fmt))
    decreases v
  {
    if v.Pair? {
      ScheduleAdds(v.second, s, fmt);
      ScheduleAdds(v.first, Schedule(v.second, s), fmt);
      var m := MeaningOf(s, fmt);
      if m.Means? { Regroup(Encode(v.first, fmt), Encode(v.second, fmt), m.rest); }
    }
  }

  lemma WriteSound(b: seq<nat>, f: Stack<Task>, e: Stack<Ext>, room: nat, fmt: Format)
    requires Meant(f, e, fmt).Means?
    ensures Sound(Plus(b, true, 1, Meant(f, e, fmt)), Write(b, f, e, room), fmt)
  {
    if |b| > room {
      assert b == b[..room] + b[room..];
      Regroup(b[..room], b[room..], Meant(f, e, fmt).rest);
    }
  }

  lemma WordFirstMeans(w: nat, second: nat, f: Stack<Task>, e: Stack<Ext>, fmt: Format)
    ensures MeaningOf(WordFirst(w, second, f, e), fmt) == Plus(fmt.cross(w), true, 2, Meant(f, e, fmt))
  {
    var inner := Push(PopExt, f);
    var e1 := Push(Words(w, second), e);
    assert Meant(inner, e1, fmt) == Plus([], true, 1, Meant(f, e, fmt));
    var m := Meant(f, e, fmt);
    if m.Means? { assert fmt.cross(w) + ([] + m.rest) == fmt.cross(w) + m.rest; }
  }

  lemma BeginSound(isArray: bool, next: Task, items: seq<Value>, f: Stack<Task>, e: Stack<Ext>, m: Meaning, fmt: Format)
    requires m.Means? && Meant(Push(next, f), e, fmt) == Counting(items, m, fmt)
    ensures Sound(Sized(isArray, items, m, fmt), Begin(next, |items|, f, e, fmt), fmt)
  {
    if Allowed(|items|, fmt) {
      var w := fmt.word(|items|);
      WordFirstMeans(w, 0, Push(next, f), e, fmt);
      Regroup(fmt.cross(w), EncodeAll(items, fmt), m.rest);
      var n := Plus(fmt.cross(w), true, 2, Counting(items, m, fmt));
      assert Follows(Sized(isArray, items, m, fmt), n, []);
    }
  }

  lemma Tails(items: seq<Value>, k: nat, fmt: Format)
    requires k < |items|
    ensures EncodeAll(items[k..], fmt) == Encode(items[k], fmt) + EncodeAll(items[k + 1..], fmt)
    ensures Costs(items[k..]) == Cost(items[k]) + 1 + Costs(items[k + 1..])
    ensures AllWithin(items[k..], fmt) <==> Within(items[k], fmt) && AllWithin(items[k + 1..], fmt)
  {
    assert items[k..][0] == items[k] && items[k..][1..] == items[k + 1..];
  }

  /** An element of a sequence is scheduled above the callback that counts through it. */
  lemma ElementSound(items: seq<Value>, k: nat, mid: State, m: Meaning, fmt: Format)
    requires m.Means? && k < |items| && MeaningOf(mid, fmt) == Counting(items[k + 1..], m, fmt)
    ensures Sound(Counting(items[k..], m, fmt), Next(Schedule(items[k], mid), []), fmt)
  {
    Tails(items, k, fmt);
    ScheduleAdds(items[k], mid, fmt);
    Regroup(Encode(items[k], fmt), EncodeAll(items[k + 1..], fmt), m.rest);
  }

  lemma LastSound(items: seq<Value>, k: nat, s: State, fmt: Format)
    requires MeaningOf(s, fmt).Means? && k == |items|
    ensures Sound(Counting(items[k..], MeaningOf(s, fmt), fmt), Next(s, []), fmt)
  {
    assert items[k..] == [];
  }

  lemma ContainerStep(s: State, room: nat, fmt: Format)
    requires MeaningOf(s, fmt).Means? && s.fstk.Push? && (s.fstk.top.StoreContainer? || s.fstk.top.ContainerNext?)
    ensures Sound(MeaningOf(s, fmt), Step(s, room, fmt), fmt)
  {
    var f, e, items := s.fstk.below, s.estk, s.fstk.top.items;
    if s.fstk.top.StoreContainer? {
      assert items[0..] == items;
      BeginSound(false, ContainerNext(items), items, f, Push(Iter(0), e), Meant(f, e, fmt), fmt);
    } else {
      var k := e.top.pos;
      if k < |items| { ElementSound(items, k, State(s.fstk, Push(Iter(k + 1), e.below)), Meant(f, e.below, fmt), fmt); }
      else { LastSound(items, k, State(f, e.below), fmt); }
    }
  }

  lemma ArrayStep(s: State, room: nat, fmt: Format)
    requires MeaningOf(s, fmt).Means? && s.fstk.Push? && (s.fstk.top.StoreArray? || s.fstk.top.ArrayNext?)
    ensures Sound(MeaningOf(s, fmt), Step(s, room, fmt), fmt)
  {
    var f, e, items := s.fstk.below, s.estk, s.fstk.top.items;
    if s.fstk.top.StoreArray? {
      assert items[0..] == items;
      BeginSound(true, ArrayNext(items), items, f, e, Meant(f, e.below, fmt), fmt);
    } else {
      var k := e.top.second;
      if k < |items| {
        ElementSound(items, k, State(s.fstk, Push(Words(e.top.first, k + 1), e.below)), Meant(f, e.below, fmt), fmt);
      }
      else { LastSound(items, k, State(f, e.below), fmt); }
    }
  }

  /** Every step, whatever the room, keeps the meaning, fails only where something does not fit, and leaves
      fewer steps to do. */
  lemma StepSound(s: State, room: nat, fmt: Format)
    requires MeaningOf(s, fmt).Means? && s.fstk.Push?
    ensures Sound(MeaningOf(s, fmt), Step(s, room, fmt), fmt)
  {
    var f, e := s.fstk.below, s.estk;
    match s.fstk.top
    case Emit(b) => WriteSound(b, f, e, room, fmt);
    case EmitTop => WriteSound(fmt.cross(e.top.first), f, e, room, fmt);
    case PopExt =>
    case StoreNullContainer => WordFirstMeans(fmt.nullWord, 0, f, e, fmt);
    case StoreNullArray => WordFirstMeans(fmt.nullWord, e.top.second, f, e.below, fmt);
    case StoreContainer(_) => ContainerStep(s, room, fmt);
    case ContainerNext(_) => ContainerStep(s, room, fmt);
    case StoreArray(_) => ArrayStep(s, room, fmt);
    case ArrayNext(_) => ArrayStep(s, room, fmt);
  }
}
