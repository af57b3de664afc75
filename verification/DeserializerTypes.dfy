/** Whatever the bytes are, what the deserializer completes has the type of its target and keeps the limits. */
module DeserializerTypes {
  import opened Common
  import opened SerialTree
  import opened Deserializer
  import opened DeserializerRuns

  // ---- Sound values

  predicate Limited(sizes: set<nat>, fmt: Format) {
    forall n :: n in sizes ==> n <= fmt.limit
  }

  /** A value of its type, null only where the target is a pointer, no sequence in it over the container limit */
  predicate Sound(v: Value, t: Type, fmt: Format) {
    HasType(v, t) && Limited(Sizes(v), fmt)
  }

  predicate AllSound(items: seq<Value>, t: Type, fmt: Format) {
    AllHaveType(items, t) && Limited(SizesOf(items), fmt)
  }

  lemma {:induction false} AppendItem(items: seq<Value>, v: Value, t: Type)
    ensures AllHaveType(items + [v], t) <==> AllHaveType(items, t) && HasType(v, t)
    ensures SizesOf(items + [v]) == SizesOf(items) + Sizes(v)
  {
    if items == [] {
      assert items + [v] == [v] && [v][1..] == [];
    } else {
      assert (items + [v])[1..] == items[1..] + [v];
      AppendItem(items[1..], v, t);
    }
  }

  lemma AppendSound(items: seq<Value>, v: Value, t: Type, fmt: Format)
    requires AllSound(items, t, fmt) && Sound(v, t, fmt)
    ensures AllSound(items + [v], t, fmt)
  {
    AppendItem(items, v, t);
  }

  /** The types of the parts in which a target is completed */
  function Fields(t: Type): seq<Type>
    decreases t
  {
    match t
    case PairType(a, b) => Fields(a) + Fields(b)
    case _ => [t]
  }

  predicate Conform(parts: seq<Value>, ts: seq<Type>, fmt: Format) {
    |parts| == |ts| && forall i :: 0 <= i < |parts| ==> Sound(parts[i], ts[i], fmt)
  }

  lemma ConformMore(parts: seq<Value>, ts: seq<Type>, v: Value, t: Type, fmt: Format)
    requires Conform(parts, ts, fmt) && Sound(v, t, fmt)
    ensures Conform(parts + [v], ts + [t], fmt)
  {
  }

  /** The target taken from sound parts is sound. */
  lemma {:induction false} TakeSound(t: Type, parts: seq<Value>, ts: seq<Type>, fmt: Format)
    requires Conform(parts, ts + Fields(t), fmt)
    ensures Sound(Take(t, parts).value, t, fmt) && Conform(Take(t, parts).rest, ts, fmt)
    decreases t
  {
    if t.PairType? {
      Regroup(ts, Fields(t.first), Fields(t.second));
      TakeSound(t.second, parts, ts + Fields(t.first), fmt);
      TakeSound(t.first, Take(t.second, parts).rest, ts, fmt);
    } else {
      TakeLast(parts, ts, t, fmt);
    }
  }

  lemma TakeLast(parts: seq<Value>, ts: seq<Type>, t: Type, fmt: Format)
    requires Conform(parts, ts + [t], fmt)
    ensures parts != [] && Sound(parts[|parts| - 1], t, fmt) && Conform(parts[..|parts| - 1], ts, fmt)
  {
    var n := |parts| - 1;
    assert (ts + [t])[n] == t;
    forall i | 0 <= i < n ensures Sound(parts[..n][i], ts[i], fmt) { assert (ts + [t])[i] == ts[i]; }
  }

  // ---- What scheduled callbacks complete

  /** The types before those of the target completed last */
  function Before(ts: seq<Type>, elem: Type): seq<Type> {
    if |Fields(elem)| <= |ts| then ts[..|ts| - |Fields(elem)|] else []
  }

  /** With parts of types `ts` completed, working off the stack comes to parts of types `goal`. */
  ghost predicate Leads(f: Stack<Task>, e: Stack<Ext>, ts: seq<Type>, goal: seq<Type>, fmt: Format)
    decreases f
  {
    match f
    case Empty => ts == goal
    case Push(t, below) =>
      match t
      case LoadLeaf(n, _) => Leads(below, e, ts + [LeafType(n)], goal, fmt)
      case LoadCross(_) => Leads(below, e, ts, goal, fmt)
      case LoadContainer(elem, nullable) => Leads(below, e, ts + [SequenceType(false, nullable, elem)], goal, fmt)
      case LoadContainerBegin(elem, nullable) =>
        e.Push? && Leads(below, e.below, ts + [SequenceType(false, nullable, elem)], goal, fmt)
      case LoadContainerNext(elem, items) =>
        && e.Push? && AllSound(items, elem, fmt) && |items| + e.top.first <= fmt.limit
        && ts == Before(ts, elem) + Fields(elem)
        && exists nullable: bool ::
             Leads(below, e.below, Before(ts, elem) + [SequenceType(false, nullable, elem)], goal, fmt)
      case LoadArray(elem, nullable) =>
        e.Push? && Leads(below, e.below, ts + [SequenceType(true, nullable, elem)], goal, fmt)
      case LoadArrayNext(elem, items) =>
        && e.Push? && e.top.first <= fmt.limit
        && (e.top.second > 0 ==>
              && AllSound(items, elem, fmt) && |items| + 1 == e.top.second <= e.top.first
              && ts == Before(ts, elem) + Fields(elem))
        && exists nullable: bool ::
             Leads(below, e.below,
                   (if e.top.second > 0 then Before(ts, elem) else ts) + [SequenceType(true, nullable, elem)], goal,
                   fmt)
  }

  lemma BeforeIs(ts: seq<Type>, elem: Type)
    ensures Before(ts + Fields(elem), elem) == ts
  {
  }

  lemma {:induction false} ScheduleLeads(t: Type, s: State, ts: seq<Type>, goal: seq<Type>, fmt: Format)
    requires Leads(s.fstk, s.estk, ts + Fields(t), goal, fmt)
    ensures Leads(Schedule(t, s).fstk, Schedule(t, s).estk, ts, goal, fmt) && Schedule(t, s).parts == s.parts
    decreases t
  {
    if t.PairType? {
      Regroup(ts, Fields(t.first), Fields(t.second));
      ScheduleLeads(t.second, s, ts + Fields(t.first), goal, fmt);
      ScheduleLeads(t.first, Schedule(t.second, s), ts, goal, fmt);
    }
  }

  // ---- Every step keeps it

  ghost predicate Holds(s: State, ts: seq<Type>, goal: seq<Type>, fmt: Format) {
    Leads(s.fstk, s.estk, ts, goal, fmt) && Conform(s.parts, ts, fmt)
  }

  ghost predicate KeepsHold(r: Result, ts: seq<Type>, goal: seq<Type>, fmt: Format) {
    r.Fail? || Holds(r.state, ts, goal, fmt)
  }

  lemma LeafHolds(s: State, input: seq<nat>, ts: seq<Type>, goal: seq<Type>, fmt: Format) returns (us: seq<Type>)
    requires s.fstk.Push? && s.fstk.top.LoadLeaf? && WorkOf(s, fmt).Steps? && Holds(s, ts, goal, fmt)
    ensures KeepsHold(Step(s, input, fmt), us, goal, fmt)
  {
    var n, got := s.fstk.top.size, s.fstk.top.got;
    if n - |got| <= |input| {
      us := ts + [LeafType(n)];
      ConformMore(s.parts, ts, Leaf(got + input[..n - |got|]), LeafType(n), fmt);
    } else {
      us := ts;
    }
  }

  lemma CrossHolds(s: State, input: seq<nat>, ts: seq<Type>, goal: seq<Type>, fmt: Format)
    requires s.fstk.Push? && s.fstk.top.LoadCross? && WorkOf(s, fmt).Steps? && Holds(s, ts, goal, fmt)
    ensures KeepsHold(Step(s, input, fmt), ts, goal, fmt)
  {
    var r := StepCross(s.fstk.top.got, s, input, fmt);
    if r.Next? { SizeIgnored(s.fstk.below, s.estk, r.state.estk.top, ts, goal, fmt); }
  }

  lemma SizeIgnored(f: Stack<Task>, e: Stack<Ext>, x: Ext, ts: seq<Type>, goal: seq<Type>, fmt: Format)
    requires ReadsSize(f) && e.Push? && Leads(f, e, ts, goal, fmt)
    ensures Leads(f, Push(x, e.below), ts, goal, fmt)
  {
  }

  /** A null, an empty sequence, or a full one, where a target waits for it */
  lemma Completes(f: Stack<Task>, e: Stack<Ext>, parts: seq<Value>, ts: seq<Type>, v: Value, t: Type, goal: seq<Type>,
                  fmt: Format)
    requires Leads(f, e, ts + [t], goal, fmt) && Conform(parts, ts, fmt) && Sound(v, t, fmt)
    ensures Holds(State(f, e, parts + [v]), ts + [t], goal, fmt)
  {
    ConformMore(parts, ts, v, t, fmt);
  }

  lemma SequenceSound(isArray: bool, nullable: bool, items: seq<Value>, elem: Type, fmt: Format)
    requires AllSound(items, elem, fmt) && |items| <= fmt.limit
    ensures Sound(Sequence(isArray, items), SequenceType(isArray, nullable, elem), fmt)
  {
  }

  lemma NullSound(isArray: bool, elem: Type, fmt: Format)
    ensures Sound(Null(isArray), SequenceType(isArray, true, elem), fmt)
  {
  }

  /** The next element is scheduled. */
  lemma ElementHolds(elem: Type, task: Task, f: Stack<Task>, e: Stack<Ext>, parts: seq<Value>, ts: seq<Type>,
                     goal: seq<Type>, fmt: Format)
    requires Leads(Push(task, f), e, ts + Fields(elem), goal, fmt) && Conform(parts, ts, fmt)
    ensures Holds(Schedule(elem, State(Push(task, f), e, parts)), ts, goal, fmt)
  {
    ScheduleLeads(elem, State(Push(task, f), e, parts), ts, goal, fmt);
  }

  lemma BeginHolds(s: State, input: seq<nat>, ts: seq<Type>, goal: seq<Type>, fmt: Format) returns (us: seq<Type>)
    requires s.fstk.Push? && s.fstk.top.LoadContainerBegin? && WorkOf(s, fmt).Steps? && Holds(s, ts, goal, fmt)
    ensures KeepsHold(Step(s, input, fmt), us, goal, fmt)
  {
    var f, e, elem, nullable := s.fstk.below, s.estk, s.fstk.top.elem, s.fstk.top.nullable;
    var t := SequenceType(false, nullable, elem);
    us := ts + [t];
    match SizeRead(e.top.first, fmt)
    case IsNull =>
      if nullable {
        NullSound(false, elem, fmt);
        Completes(f, e.below, s.parts, ts, Null(false), t, goal, fmt);
      }
    case Refused =>
    case Elements(n) =>
      if n == 0 {
        SequenceSound(false, nullable, [], elem, fmt);
        Completes(f, e.below, s.parts, ts, Sequence(false, []), t, goal, fmt);
      } else {
        us := ts;
        BeforeIs(ts, elem);
        ElementHolds(elem, LoadContainerNext(elem, []), f, Push(Words(n, 0), e.below), s.parts, ts, goal, fmt);
      }
  }

  lemma InsertHolds(s: State, input: seq<nat>, ts: seq<Type>, goal: seq<Type>, fmt: Format) returns (us: seq<Type>)
    requires s.fstk.Push? && s.fstk.top.LoadContainerNext? && WorkOf(s, fmt).Steps? && Holds(s, ts, goal, fmt)
    ensures KeepsHold(Step(s, input, fmt), us, goal, fmt)
  {
    var f, e, elem := s.fstk.below, s.estk, s.fstk.top.elem;
    var front, got := Before(ts, elem), Take(elem, s.parts);
    var all := s.fstk.top.items + [got.value];
    TakeSound(elem, s.parts, front, fmt);
    AppendSound(s.fstk.top.items, got.value, elem, fmt);
    var nullable: bool :| Leads(f, e.below, front + [SequenceType(false, nullable, elem)], goal, fmt);
    if e.top.first > 1 {
      us := front;
      BeforeIs(front, elem);
      ElementHolds(elem, LoadContainerNext(elem, all), f, Push(Words(e.top.first - 1, 0), e.below), got.rest, front,
                   goal, fmt);
    } else {
      us := front + [SequenceType(false, nullable, elem)];
      SequenceSound(false, nullable, all, elem, fmt);
      Completes(f, e.below, got.rest, front, Sequence(false, all), SequenceType(false, nullable, elem), goal, fmt);
    }
  }

  lemma ArrayHolds(s: State, input: seq<nat>, ts: seq<Type>, goal: seq<Type>, fmt: Format) returns (us: seq<Type>)
    requires s.fstk.Push? && s.fstk.top.LoadArray? && WorkOf(s, fmt).Steps? && Holds(s, ts, goal, fmt)
    ensures KeepsHold(Step(s, input, fmt), us, goal, fmt)
  {
    var f, e, elem, nullable := s.fstk.below, s.estk, s.fstk.top.elem, s.fstk.top.nullable;
    us := ts;
    match SizeRead(e.top.first, fmt)
    case IsNull =>
      if nullable {
        us := ts + [SequenceType(true, nullable, elem)];
        NullSound(true, elem, fmt);
        Completes(f, e.below, s.parts, ts, Null(true), SequenceType(true, nullable, elem), goal, fmt);
      }
    case Refused =>
    case Elements(n) =>
      assert Leads(Push(LoadArrayNext(elem, []), f), Push(Words(n, 0), e.below), ts, goal, fmt);
  }

  lemma CountHolds(s: State, input: seq<nat>, ts: seq<Type>, goal: seq<Type>, fmt: Format) returns (us: seq<Type>)
    requires s.fstk.Push? && s.fstk.top.LoadArrayNext? && WorkOf(s, fmt).Steps? && Holds(s, ts, goal, fmt)
    ensures KeepsHold(Step(s, input, fmt), us, goal, fmt)
  {
    var f, e, elem := s.fstk.below, s.estk, s.fstk.top.elem;
    var n, k := e.top.first, e.top.second;
    var front := if k > 0 then Before(ts, elem) else ts;
    var got := if k == 0 then Taken(Leaf([]), s.parts) else Take(elem, s.parts);
    var all := if k == 0 then [] else s.fstk.top.items + [got.value];
    if k > 0 {
      TakeSound(elem, s.parts, front, fmt);
      AppendSound(s.fstk.top.items, got.value, elem, fmt);
    }
    var nullable: bool :| Leads(f, e.below, front + [SequenceType(true, nullable, elem)], goal, fmt);
    if k < n {
      us := front;
      BeforeIs(front, elem);
      ElementHolds(elem, LoadArrayNext(elem, all), f, Push(Words(n, k + 1), e.below), got.rest, front, goal, fmt);
    } else {
      us := front + [SequenceType(true, nullable, elem)];
      SequenceSound(true, nullable, all, elem, fmt);
      Completes(f, e.below, got.rest, front, Sequence(true, all), SequenceType(true, nullable, elem), goal, fmt);
    }
  }

  lemma StepHolds(s: State, input: seq<nat>, ts: seq<Type>, goal: seq<Type>, fmt: Format) returns (us: seq<Type>)
    requires s.fstk.Push? && WorkOf(s, fmt).Steps? && Holds(s, ts, goal, fmt)
    ensures KeepsHold(Step(s, input, fmt), us, goal, fmt)
  {
    us := ts;
    match s.fstk.top
    case LoadLeaf(_, _) => us := LeafHolds(s, input, ts, goal, fmt);
    case LoadCross(_) => CrossHolds(s, input, ts, goal, fmt);
    case LoadContainer(elem, nullable) =>
      assert Leads(Push(LoadContainerBegin(elem, nullable), s.fstk.below), Push(Words(0, 0), s.estk), ts, goal, fmt);
    case LoadContainerBegin(_, _) => us := BeginHolds(s, input, ts, goal, fmt);
    case LoadContainerNext(_, _) => us := InsertHolds(s, input, ts, goal, fmt);
    case LoadArray(_, _) => us := ArrayHolds(s, input, ts, goal, fmt);
    case LoadArrayNext(_, _) => us := CountHolds(s, input, ts, goal, fmt);
  }

  // ---- Runs

  /** A run that ends has used up a first part of the input, emptied both stacks, and completed parts of the types. */
  ghost predicate EndsWell(r: Outcome, input: seq<nat>, goal: seq<Type>, fmt: Format) {
    r.Done? ==>
      && r.state.fstk.Empty? && r.state.estk.Empty? && Conform(r.state.parts, goal, fmt)
      && |r.left| <= |input| && r.left == input[|input| - |r.left|..]
  }

  lemma {:induction false} RunEndsWell(s: State, input: seq<nat>, ts: seq<Type>, goal: seq<Type>, fmt: Format)
    requires WorkOf(s, fmt).Steps? && Holds(s, ts, goal, fmt)
    ensures EndsWell(Run(s, input, fmt), input, goal, fmt)
    decreases WorkOf(s, fmt).n
  {
    if s.fstk.Push? {
      StepProgress(s, input, fmt);
      Unfold(s, input, fmt);
      var us := StepHolds(s, input, ts, goal, fmt);
      var r := Step(s, input, fmt);
      if r.Next? {
        RunEndsWell(r.state, input[r.used..], us, goal, fmt);
        LaterPart(Run(s, input, fmt), input, r.used, goal, fmt);
      }
    }
  }

  lemma LaterPart(r: Outcome, input: seq<nat>, used: nat, goal: seq<Type>, fmt: Format)
    requires used <= |input| && EndsWell(r, input[used..], goal, fmt)
    ensures EndsWell(r, input, goal, fmt)
  {
  }

  /** For every target and any bytes, cut into any pieces: if the run ends, both stacks are empty, what is left is the
      end of the input, and the target holds a value of its type in which no sequence is over the container limit. */
  lemma LoadedIsSound(t: Type, chunks: seq<seq<nat>>, fmt: Format)
    requires chunks != []
    ensures WorkOf(Schedule(t, IDLE), fmt).Steps?
    ensures var r := RunAll(Schedule(t, IDLE), chunks, fmt);
            r.Done? ==>
              && r.state.fstk.Empty? && r.state.estk.Empty?
              && Sound(Take(t, r.state.parts).value, t, fmt) && Take(t, r.state.parts).rest == []
              && |r.left| <= |Flat(chunks)| && r.left == Flat(chunks)[|Flat(chunks)| - |r.left|..]
  {
    ScheduleCosts(t, IDLE, fmt);
    assert [] + Fields(t) == Fields(t);
    ScheduleLeads(t, IDLE, [], Fields(t), fmt);
    RunEndsWell(Schedule(t, IDLE), Flat(chunks), [], Fields(t), fmt);
    PiecesAreWhole(Schedule(t, IDLE), chunks, fmt);
    var r := RunAll(Schedule(t, IDLE), chunks, fmt);
    if r.Done? { TakeSound(t, r.state.parts, [], fmt); }
  }
}
