/**
 The deserializer: tasks work off the input and fill targets. Targets are filled in place in the source;
 here the parts completed so far are kept in order of completion, and whoever owns a target takes its
 parts from the end.
 */
module Deserializer {
  import opened Common
  import opened SerialTree

  datatype Task =
    | LoadLeaf(size: nat, got: seq<nat>)
    | LoadCross(got: seq<nat>)
    | LoadContainer(elem: Type, nullable: bool)
    | LoadContainerBegin(elem: Type, nullable: bool)
    | LoadContainerNext(elem: Type, items: seq<Value>)
    | LoadArray(elem: Type, nullable: bool)
    | LoadArrayNext(elem: Type, items: seq<Value>)

  datatype Ext = Words(first: nat, second: nat)

  datatype State = State(fstk: Stack<Task>, estk: Stack<Ext>, parts: seq<Value>)

  /** Scheduling a target of a type; a pair is scheduled second part first. */
  function Schedule(t: Type, s: State): State
    decreases t
  {
    match t
    case LeafType(n) => s.(fstk := Push(LoadLeaf(n, []), s.fstk))
    case PairType(a, b) => Schedule(a, Schedule(b, s))
    case SequenceType(isArray, nullable, elem) =>
      if isArray then s.(fstk := Push(LoadCross([]), Push(LoadArray(elem, nullable), s.fstk)),
                         estk := Push(Words(0, 0), s.estk))
      else s.(fstk := Push(LoadContainer(elem, nullable), s.fstk))
  }

  /** The parts a value of some type is completed in: a pair is never completed as such. */
  function Parts(v: Value): seq<Value>
    decreases v
  {
    match v
    case Pair(a, b) => Parts(a) + Parts(b)
    case _ => [v]
  }

  datatype Taken = Taken(value: Value, rest: seq<Value>)

  /** The target of a type, from the parts completed last */
  function Take(t: Type, parts: seq<Value>): Taken
    decreases t
  {
    match t
    case PairType(a, b) =>
      var y := Take(b, parts);
      var x := Take(a, y.rest);
      Taken(Pair(x.value, y.value), x.rest)
    case _ => if parts == [] then Taken(Leaf([]), []) else Taken(parts[|parts| - 1], parts[..|parts| - 1])
  }

  lemma {:induction false} TakeParts(v: Value, t: Type, parts: seq<Value>)
    requires HasType(v, t)
    ensures Take(t, parts + Parts(v)) == Taken(v, parts)
    decreases v
  {
    if v.Pair? {
      assert parts + Parts(v) == (parts + Parts(v.first)) + Parts(v.second);
      TakeParts(v.second, t.second, parts + Parts(v.first));
      TakeParts(v.first, t.first, parts);
    }
  }

  // ---- How many steps are left, whatever the input

  function Cost(t: Type, limit: nat): nat
    decreases t, 0
  {
    match t
    case LeafType(_) => 1
    case PairType(a, b) => Cost(a, limit) + Cost(b, limit)
    case SequenceType(_, _, elem) => 3 + Many(elem, limit, limit + 1)
  }

  function Many(elem: Type, limit: nat, n: nat): nat
    decreases elem, 1
  {
    n * (Cost(elem, limit) + 2)
  }

  lemma ManyMore(elem: Type, limit: nat, n: nat)
    ensures Many(elem, limit, n + 1) == Many(elem, limit, n) + Cost(elem, limit) + 2
  {
    var c := Cost(elem, limit) + 2;
    assert (n + 1) * c == n * c + c;
  }

  lemma ManyMonotone(elem: Type, limit: nat, n: nat, m: nat)
    requires n <= m
    ensures Many(elem, limit, n) <= Many(elem, limit, m)
  {
    assert n * (Cost(elem, limit) + 2) <= m * (Cost(elem, limit) + 2);
  }

  /** A bound on the steps left; Broken where a task does not find its data on the second stack */
  datatype Bound = Broken | Steps(n: nat)

  function Plus(n: nat, b: Bound): Bound {
    match b
    case Broken => Broken
    case Steps(m) => Steps(n + m)
  }

  /** A task that reads the size the one above it leaves for it */
  predicate ReadsSize(f: Stack<Task>) {
    f.Push? && (f.top.LoadContainerBegin? || f.top.LoadArray?)
  }

  function Work(f: Stack<Task>, e: Stack<Ext>, fmt: Format): Bound
    decreases f
  {
    match f
    case Empty => if e.Empty? then Steps(0) else Broken
    case Push(t, below) =>
      match t
      case LoadLeaf(n, got) => if |got| <= n then Plus(1, Work(below, e, fmt)) else Broken
      case LoadCross(got) =>
        if e.Push? && (got == [] || |got| < fmt.length(got[0])) && ReadsSize(below)
        then Plus(1, Work(below, e, fmt)) else Broken
      case LoadContainer(elem, _) => Plus(3 + Many(elem, fmt.limit, fmt.limit + 1), Work(below, e, fmt))
      case LoadContainerBegin(elem, _) =>
        if e.Push? then Plus(1 + Many(elem, fmt.limit, fmt.limit + 1), Work(below, e.below, fmt)) else Broken
      case LoadContainerNext(elem, items) =>
        if e.Push? && e.top.first > 0 then Plus(Many(elem, fmt.limit, e.top.first), Work(below, e.below, fmt))
        else Broken
      case LoadArray(elem, _) =>
        if e.Push? && e.top.second == 0 then Plus(2 + Many(elem, fmt.limit, fmt.limit + 1), Work(below, e.below, fmt))
        else Broken
      case LoadArrayNext(elem, items) =>
        if e.Push? && e.top.second <= e.top.first
        then Plus(1 + Many(elem, fmt.limit, e.top.first - e.top.second), Work(below, e.below, fmt)) else Broken
  }

  function WorkOf(s: State, fmt: Format): Bound {
    Work(s.fstk, s.estk, fmt)
  }

  // ---- Steps

  /** One call of the top task: it used some bytes and the run goes on, it took all there were and waits for
      more, or it refused them. */
  datatype Result = Next(state: State, used: nat) | Wait(state: State) | Fail

  function StepLeaf(n: nat, got: seq<nat>, s: State, input: seq<nat>): Result
    requires s.fstk.Push? && |got| <= n
  {
    var need := n - |got|;
    if need <= |input| then Next(State(s.fstk.below, s.estk, s.parts + [Leaf(got + input[..need])]), need)
    else Wait(s.(fstk := Push(LoadLeaf(n, got + input), s.fstk.below)))
  }

  /** loadCross with its continuation: the first byte says how many there are. */
  function StepCross(got: seq<nat>, s: State, input: seq<nat>, fmt: Format): Result
    requires s.fstk.Push? && s.estk.Push? && (got == [] || |got| < fmt.length(got[0]))
  {
    var all := got + input;
    if all == [] then Wait(s)
    else
      var n := fmt.length(all[0]);
      if n <= |all| then
        match fmt.load(all[..n])
        case Some(w) => Next(State(s.fstk.below, Push(s.estk.top.(first := w), s.estk.below), s.parts), n - |got|)
        case None => Fail
      else Wait(s.(fstk := Push(LoadCross(all), s.fstk.below)))
  }

  /** A size just read: null, refused, or a number of elements */
  datatype Size = IsNull | Refused | Elements(n: nat)

  function SizeRead(w: nat, fmt: Format): Size {
    if w == fmt.nullWord then IsNull
    else match fmt.check(w)
      case None => Refused
      case Some(n) => if n > fmt.limit then Refused else Elements(n)
  }

  function Step(s: State, input: seq<nat>, fmt: Format): Result
    requires s.fstk.Push? && WorkOf(s, fmt).Steps?
  {
    var f, e := s.fstk.below, s.estk;
    match s.fstk.top
    case LoadLeaf(n, got) => StepLeaf(n, got, s, input)
    case LoadCross(got) => StepCross(got, s, input, fmt)
    case LoadContainer(elem, nullable) =>
      Next(s.(fstk := Push(LoadCross([]), Push(LoadContainerBegin(elem, nullable), f)),
              estk := Push(Words(0, 0), e)), 0)
    case LoadContainerBegin(elem, nullable) =>
      (match SizeRead(e.top.first, fmt)
       case IsNull => if nullable then Next(State(f, e.below, s.parts + [Null(false)]), 0) else Fail
       case Refused => Fail
       case Elements(n) =>
         if n == 0 then Next(State(f, e.below, s.parts + [Sequence(false, [])]), 0)
         else Next(Schedule(elem, s.(fstk := Push(LoadContainerNext(elem, []), f),
                                     estk := Push(Words(n, 0), e.below))), 0))
    case LoadContainerNext(elem, items) =>
      var got := Take(elem, s.parts);
      var left := e.top.first - 1;
      var all := items + [got.value];
      if left > 0
      then Next(Schedule(elem, State(Push(LoadContainerNext(elem, all), f), Push(Words(left, 0), e.below),
                                     got.rest)), 0)
      else Next(State(f, e.below, got.rest + [Sequence(false, all)]), 0)
    case LoadArray(elem, nullable) =>
      (match SizeRead(e.top.first, fmt)
       case IsNull => if nullable then Next(State(f, e.below, s.parts + [Null(true)]), 0) else Fail
       case Refused => Fail
       case Elements(n) => Next(s.(fstk := Push(LoadArrayNext(elem, []), f), estk := Push(Words(n, 0), e.below)), 0))
    case LoadArrayNext(elem, items) =>
      var n, k := e.top.first, e.top.second;
      var got := if k == 0 then Taken(Leaf([]), s.parts) else Take(elem, s.parts);
      var all := if k == 0 then [] else items + [got.value];
      if k < n
      then Next(Schedule(elem, State(Push(LoadArrayNext(elem, all), f), Push(Words(n, k + 1), e.below), got.rest)), 0)
      else Next(State(f, e.below, got.rest + [Sequence(true, all)]), 0)
  }

  // ---- Every run ends

  lemma {:induction false} ScheduleCosts(t: Type, s: State, fmt: Format)
    ensures WorkOf(Schedule(t, s), fmt) == Plus(Cost(t, fmt.limit), WorkOf(s, fmt))
    decreases t
  {
    if t.PairType? {
      ScheduleCosts(t.second, s, fmt);
      ScheduleCosts(t.first, Schedule(t.second, s), fmt);
    } else if t.SequenceType? && t.isArray {
      CrossCosts(LoadArray(t.elem, t.nullable), s.fstk, Push(Words(0, 0), s.estk), fmt);
    }
  }

  lemma CrossCosts(next: Task, f: Stack<Task>, e: Stack<Ext>, fmt: Format)
    requires e.Push? && (next.LoadContainerBegin? || next.LoadArray?)
    ensures Work(Push(LoadCross([]), Push(next, f)), e, fmt) == Plus(1, Work(Push(next, f), e, fmt))
  {
  }

  predicate Less(a: Bound, b: Bound) {
    a.Steps? && b.Steps? && a.n < b.n
  }

  predicate Progress(w: Bound, r: Result, input: seq<nat>, fmt: Format) {
    match r
    case Next(t, used) => Less(WorkOf(t, fmt), w) && used <= |input|
    case Wait(t) => WorkOf(t, fmt) == w && t.fstk.Push?
    case Fail => true
  }

  lemma ContainerProgress(s: State, input: seq<nat>, fmt: Format)
    requires s.fstk.Push? && WorkOf(s, fmt).Steps? && (s.fstk.top.LoadContainerBegin? || s.fstk.top.LoadContainerNext?)
    ensures Progress(WorkOf(s, fmt), Step(s, input, fmt), input, fmt)
  {
    var f, e, elem := s.fstk.below, s.estk, s.fstk.top.elem;
    if s.fstk.top.LoadContainerBegin? {
      match SizeRead(e.top.first, fmt)
      case Elements(n) =>
        ManyMore(elem, fmt.limit, fmt.limit);
        ManyMonotone(elem, fmt.limit, n, fmt.limit);
        if n > 0 {
          ScheduleCosts(elem, s.(fstk := Push(LoadContainerNext(elem, []), f), estk := Push(Words(n, 0), e.below)),
                        fmt);
        }
      case _ =>
    } else {
      var got := Take(elem, s.parts);
      var left := e.top.first - 1;
      ManyMore(elem, fmt.limit, left);
      if left > 0 {
        ScheduleCosts(elem, State(Push(LoadContainerNext(elem, s.fstk.top.items + [got.value]), f),
                                  Push(Words(left, 0), e.below), got.rest), fmt);
      }
    }
  }

  lemma ArrayProgress(s: State, input: seq<nat>, fmt: Format)
    requires s.fstk.Push? && WorkOf(s, fmt).Steps? && (s.fstk.top.LoadArray? || s.fstk.top.LoadArrayNext?)
    ensures Progress(WorkOf(s, fmt), Step(s, input, fmt), input, fmt)
  {
    var f, e, elem := s.fstk.below, s.estk, s.fstk.top.elem;
    if s.fstk.top.LoadArray? {
      match SizeRead(e.top.first, fmt)
      case Elements(n) =>
        ManyMonotone(elem, fmt.limit, n, fmt.limit + 1);
      case _ =>
    } else {
      var n, k := e.top.first, e.top.second;
      var got := if k == 0 then Taken(Leaf([]), s.parts) else Take(elem, s.parts);
      var all := if k == 0 then [] else s.fstk.top.items + [got.value];
      if k < n {
        ManyMore(elem, fmt.limit, n - k - 1);
        ScheduleCosts(elem, State(Push(LoadArrayNext(elem, all), f), Push(Words(n, k + 1), e.below), got.rest), fmt);
      }
    }
  }

  lemma SizeWritten(f: Stack<Task>, e: Stack<Ext>, w: nat, fmt: Format)
    requires ReadsSize(f) && e.Push?
    ensures Work(f, Push(e.top.(first := w), e.below), fmt) == Work(f, e, fmt)
  {
  }

  lemma CrossProgress(got: seq<nat>, s: State, input: seq<nat>, fmt: Format)
    requires s.fstk.Push? && s.fstk.top == LoadCross(got) && WorkOf(s, fmt).Steps?
    ensures Progress(WorkOf(s, fmt), StepCross(got, s, input, fmt), input, fmt)
  {
    var all := got + input;
    if all != [] {
      var n := fmt.length(all[0]);
      if got != [] { assert all[0] == got[0]; }
      if n <= |all| && fmt.load(all[..n]).Some? {
        SizeWritten(s.fstk.below, s.estk, fmt.load(all[..n]).value, fmt);
      }
    }
  }

  /** Every step leaves fewer steps to do or waits for input, whatever the input is. */
  lemma StepProgress(s: State, input: seq<nat>, fmt: Format)
    requires s.fstk.Push? && WorkOf(s, fmt).Steps?
    ensures Progress(WorkOf(s, fmt), Step(s, input, fmt), input, fmt)
  {
    match s.fstk.top
    case LoadLeaf(_, _) =>
    case LoadCross(got) => CrossProgress(got, s, input, fmt);
    case LoadContainer(elem, nullable) =>
      CrossCosts(LoadContainerBegin(elem, nullable), s.fstk.below, Push(Words(0, 0), s.estk), fmt);
    case LoadContainerBegin(_, _) => ContainerProgress(s, input, fmt);
    case LoadContainerNext(_, _) => ContainerProgress(s, input, fmt);
    case LoadArray(_, _) => ArrayProgress(s, input, fmt);
    case LoadArrayNext(_, _) => ArrayProgress(s, input, fmt);
  }
}
