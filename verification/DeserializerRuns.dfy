/** Whole runs of the deserializer, over the input at once and in pieces. */
module DeserializerRuns {
  import opened Common
  import opened SerialTree
  import opened Deserializer

  /** Nothing left to do, with the input that was left; or waiting for more input; or refused */
  datatype Outcome = Done(state: State, left: seq<nat>) | Waiting(state: State) | Failed

  /** DeserializerBase::run */
  function Run(s: State, input: seq<nat>, fmt: Format): Outcome
    requires WorkOf(s, fmt).Steps?
    decreases WorkOf(s, fmt).n
  {
    if s.fstk.Empty? then Done(s, input)
    else
      StepProgress(s, input, fmt);
      match Step(s, input, fmt)
      case Next(t, used) => Run(t, input[used..], fmt)
      case Wait(t) => Waiting(t)
      case Fail => Failed
  }

  // ---- Input in pieces

  /** What the waiting task comes to with the rest of the input is what it would have come to at once. */
  predicate SameLater(whole: Result, later: Result, n: nat) {
    match whole
    case Next(u, used) => used >= n && later == Next(u, used - n)
    case Wait(u) => later == whole
    case Fail => later == Fail
  }

  /** What a step does with `b` after it did `r` with the input before `b`, given what it does with both */
  predicate StepContinues(r: Result, whole: Result, a: seq<nat>, b: seq<nat>, fmt: Format) {
    match r
    case Next(t, used) => whole == r
    case Fail => whole == Fail
    case Wait(t) =>
      t.fstk.Push? && WorkOf(t, fmt).Steps? && SameLater(whole, Step(t, b, fmt), |a|)
  }

  lemma LeafContinues(s: State, a: seq<nat>, b: seq<nat>, fmt: Format)
    requires s.fstk.Push? && WorkOf(s, fmt).Steps? && s.fstk.top.LoadLeaf?
    ensures StepContinues(Step(s, a, fmt), Step(s, a + b, fmt), a, b, fmt)
  {
    var n, got := s.fstk.top.size, s.fstk.top.got;
    var need := n - |got|;
    if need <= |a| { assert (a + b)[..need] == a[..need]; }
    else {
      assert got + (a + b) == (got + a) + b;
      if need <= |a + b| { assert got + (a + b)[..need] == (got + a) + b[..need - |a|]; }
    }
  }

  lemma Pieces(got: seq<nat>, a: seq<nat>, b: seq<nat>)
    ensures got + (a + b) == (got + a) + b
    ensures got + a != [] ==> (got + (a + b))[0] == (got + a)[0]
    ensures forall n :: 0 <= n <= |got + a| ==> (got + (a + b))[..n] == (got + a)[..n]
  {
  }

  /** Reading a size in two pieces */
  lemma CrossSplits(got: seq<nat>, s: State, a: seq<nat>, b: seq<nat>, fmt: Format)
    requires s.fstk.Push? && s.fstk.top == LoadCross(got) && s.estk.Push?
    requires got == [] || |got| < fmt.length(got[0])
    ensures var r, whole := StepCross(got, s, a, fmt), StepCross(got, s, a + b, fmt);
            if r.Wait?
            then r.state == s.(fstk := Push(LoadCross(got + a), s.fstk.below))
                 && SameLater(whole, StepCross(got + a, r.state, b, fmt), |a|)
            else whole == r
  {
    Pieces(got, a, b);
    if got + a == [] { assert got == [] && a == [] && a + b == b; }
  }

  lemma CrossContinues(s: State, a: seq<nat>, b: seq<nat>, fmt: Format)
    requires s.fstk.Push? && WorkOf(s, fmt).Steps? && s.fstk.top.LoadCross?
    ensures StepContinues(Step(s, a, fmt), Step(s, a + b, fmt), a, b, fmt)
  {
    StepProgress(s, a, fmt);
    CrossSplits(s.fstk.top.got, s, a, b, fmt);
  }

  lemma StepSplits(s: State, a: seq<nat>, b: seq<nat>, fmt: Format)
    requires s.fstk.Push? && WorkOf(s, fmt).Steps?
    ensures StepContinues(Step(s, a, fmt), Step(s, a + b, fmt), a, b, fmt)
  {
    match s.fstk.top
    case LoadLeaf(_, _) => LeafContinues(s, a, b, fmt);
    case LoadCross(_) => CrossContinues(s, a, b, fmt);
    case _ =>
  }

  /** Input that comes in two pieces is treated as if it had come at once. */
  lemma {:induction false} RunSplits(s: State, a: seq<nat>, b: seq<nat>, fmt: Format)
    requires WorkOf(s, fmt).Steps?
    ensures var r, whole := Run(s, a, fmt), Run(s, a + b, fmt);
            match r
            case Done(t, left) => whole == Done(t, left + b)
            case Waiting(t) => WorkOf(t, fmt).Steps? && whole == Run(t, b, fmt)
            case Failed => whole == Failed
    decreases WorkOf(s, fmt).n
  {
    if s.fstk.Push? {
      StepSplits(s, a, b, fmt);
      StepProgress(s, a, fmt);
      match Step(s, a, fmt)
      case Next(t, used) =>
        assert (a + b)[used..] == a[used..] + b;
        RunSplits(t, a[used..], b, fmt);
      case Wait(t) => Resumes(s, t, a, b, fmt);
      case Fail =>
    }
  }

  lemma Unfold(s: State, input: seq<nat>, fmt: Format)
    requires s.fstk.Push? && WorkOf(s, fmt).Steps?
    ensures var r := Step(s, input, fmt);
            && (r.Next? ==>
                  && WorkOf(r.state, fmt).Steps? && r.used <= |input|
                  && Run(s, input, fmt) == Run(r.state, input[r.used..], fmt))
            && (r.Wait? ==> Run(s, input, fmt) == Waiting(r.state))
            && (r.Fail? ==> Run(s, input, fmt) == Failed)
  {
    StepProgress(s, input, fmt);
  }

  lemma Resumes(s: State, t: State, a: seq<nat>, b: seq<nat>, fmt: Format)
    requires s.fstk.Push? && WorkOf(s, fmt).Steps? && Step(s, a, fmt) == Wait(t)
    ensures WorkOf(t, fmt).Steps? && Run(s, a + b, fmt) == Run(t, b, fmt)
  {
    StepSplits(s, a, b, fmt);
    ResumesWith(s, t, a, b, fmt, Step(s, a + b, fmt), Step(t, b, fmt));
  }

  lemma ResumesWith(s: State, t: State, a: seq<nat>, b: seq<nat>, fmt: Format, whole: Result, later: Result)
    requires s.fstk.Push? && WorkOf(s, fmt).Steps? && whole == Step(s, a + b, fmt)
    requires t.fstk.Push? && WorkOf(t, fmt).Steps? && later == Step(t, b, fmt) && SameLater(whole, later, |a|)
    ensures Run(s, a + b, fmt) == Run(t, b, fmt)
  {
    Unfold(s, a + b, fmt);
    Unfold(t, b, fmt);
    if whole.Next? { Cut(a, b, whole.used); }
  }

  lemma Cut(a: seq<nat>, b: seq<nat>, used: nat)
    requires |a| <= used <= |a| + |b|
    ensures (a + b)[used..] == b[used - |a|..]
  {
  }

  /** The caller's loop: one piece after the other while more is wanted */
  function RunAll(s: State, chunks: seq<seq<nat>>, fmt: Format): Outcome
    requires WorkOf(s, fmt).Steps?
    decreases |chunks|
  {
    if chunks == [] then Waiting(s)
    else
      RunSplits(s, chunks[0], [], fmt);
      match Run(s, chunks[0], fmt)
      case Done(t, left) => Done(t, left + Flat(chunks[1..]))
      case Waiting(t) => RunAll(t, chunks[1..], fmt)
      case Failed => Failed
  }

  lemma NoInput(s: State, a: seq<nat>, fmt: Format)
    requires WorkOf(s, fmt).Steps? && Run(s, a, fmt).Waiting?
    ensures WorkOf(Run(s, a, fmt).state, fmt).Steps? && Run(Run(s, a, fmt).state, [], fmt) == Run(s, a, fmt)
  {
    RunSplits(s, a, [], fmt);
    assert a + [] == a;
  }

  /** For every input, however it is cut into pieces: the result is that of one run over all of it. */
  lemma {:induction false} PiecesAreWhole(s: State, chunks: seq<seq<nat>>, fmt: Format)
    requires WorkOf(s, fmt).Steps? && chunks != []
    ensures RunAll(s, chunks, fmt) == Run(s, Flat(chunks), fmt)
    decreases |chunks|
  {
    RunSplits(s, chunks[0], Flat(chunks[1..]), fmt);
    if Run(s, chunks[0], fmt).Waiting? {
      if |chunks| == 1 {
        NoInput(s, chunks[0], fmt);
      } else {
        PiecesAreWhole(Run(s, chunks[0], fmt).state, chunks[1..], fmt);
      }
    }
  }

  // ---- Back to where it started

  /** From `s`, a run over `b` and anything after it goes on as from `t` over what comes after. */
  ghost predicate Goes(s: State, b: seq<nat>, t: State, fmt: Format) {
    && WorkOf(s, fmt).Steps? && WorkOf(t, fmt).Steps?
    && forall rest: seq<nat> :: GoesWith(s, b, t, rest, fmt)
  }

  predicate GoesWith(s: State, b: seq<nat>, t: State, rest: seq<nat>, fmt: Format)
    requires WorkOf(s, fmt).Steps? && WorkOf(t, fmt).Steps?
  {
    Run(s, b + rest, fmt) == Run(t, rest, fmt)
  }

  lemma GoOn(s: State, a: seq<nat>, t: State, b: seq<nat>, u: State, c: seq<nat>, fmt: Format)
    requires Goes(s, a, t, fmt) && Goes(t, b, u, fmt) && c == a + b
    ensures Goes(s, c, u, fmt)
  {
    forall rest: seq<nat> ensures GoesWith(s, c, u, rest, fmt) {
      assert GoesWith(s, a, t, b + rest, fmt) && GoesWith(t, b, u, rest, fmt);
      GoOnWith(s, a, t, b, u, rest, fmt);
    }
  }

  lemma GoOnWith(s: State, a: seq<nat>, t: State, b: seq<nat>, u: State, rest: seq<nat>, fmt: Format)
    requires WorkOf(s, fmt).Steps? && WorkOf(t, fmt).Steps? && WorkOf(u, fmt).Steps?
    requires GoesWith(s, a, t, b + rest, fmt) && GoesWith(t, b, u, rest, fmt)
    ensures GoesWith(s, a + b, u, rest, fmt)
  {
    Regroup(a, b, rest);
  }

  predicate StepsTo(s: State, b: seq<nat>, t: State, rest: seq<nat>, fmt: Format)
    requires s.fstk.Push? && WorkOf(s, fmt).Steps?
  {
    Step(s, b + rest, fmt) == Next(t, |b|)
  }

  lemma StepGoes(s: State, b: seq<nat>, t: State, fmt: Format)
    requires s.fstk.Push? && WorkOf(s, fmt).Steps? && forall rest: seq<nat> :: StepsTo(s, b, t, rest, fmt)
    ensures Goes(s, b, t, fmt)
  {
    assert StepsTo(s, b, t, [], fmt);
    StepProgress(s, b + [], fmt);
    forall rest: seq<nat> ensures GoesWith(s, b, t, rest, fmt) {
      assert StepsTo(s, b, t, rest, fmt);
      StepProgress(s, b + rest, fmt);
      assert (b + rest)[|b|..] == rest;
    }
  }

  function Completed(s: State, v: Value): State {
    s.(parts := s.parts + Parts(v))
  }

  lemma LeafRead(b: seq<nat>, rest: seq<nat>)
    ensures [] + (b + rest)[..|b|] == b
  {
  }

  lemma LeafGoes(n: nat, b: seq<nat>, s: State, fmt: Format)
    requires WorkOf(s, fmt).Steps? && |b| == n
    ensures Goes(Schedule(LeafType(n), s), b, Completed(s, Leaf(b)), fmt)
  {
    var s0 := Schedule(LeafType(n), s);
    forall rest: seq<nat> ensures StepsTo(s0, b, Completed(s, Leaf(b)), rest, fmt) {
      LeafRead(b, rest);
    }
    StepGoes(s0, b, Completed(s, Leaf(b)), fmt);
  }

  /** The size of a sequence, read into the second stack for the callback below it */
  lemma CrossGoes(w: nat, s: State, f: Stack<Task>, fmt: Format)
    requires s.fstk == Push(LoadCross([]), f) && s.estk.Push? && WorkOf(s, fmt).Steps?
    requires w <= fmt.nullWord && WordReadsBack(fmt, w)
    ensures Goes(s, fmt.cross(w), State(f, Push(s.estk.top.(first := w), s.estk.below), s.parts), fmt)
  {
    var b := fmt.cross(w);
    var t := State(f, Push(s.estk.top.(first := w), s.estk.below), s.parts);
    forall rest: seq<nat> ensures StepsTo(s, b, t, rest, fmt) {
      var all := [] + (b + rest);
      assert all == b + rest && all[0] == b[0] && all[..|b|] == b;
    }
    StepGoes(s, b, t, fmt);
  }

  lemma Tails(items: seq<Value>, k: nat, t: Type, fmt: Format)
    requires k < |items|
    ensures EncodeAll(items[k..], fmt) == Encode(items[k], fmt) + EncodeAll(items[k + 1..], fmt)
    ensures AllWithin(items[k..], fmt) ==> Within(items[k], fmt) && AllWithin(items[k + 1..], fmt)
    ensures AllHaveType(items[k..], t) ==> HasType(items[k], t) && AllHaveType(items[k + 1..], t)
  {
    assert items[k..][0] == items[k] && items[k..][1..] == items[k + 1..];
  }

  /** A container with `k` elements inserted and the next one being loaded, over the stacks of `s` */
  function Filling(elem: Type, items: seq<Value>, k: nat, s: State): State
    requires k <= |items|
  {
    s.(fstk := Push(LoadContainerNext(elem, items[..k]), s.fstk), estk := Push(Words(|items| - k, 0), s.estk))
  }

  lemma FillingWorks(elem: Type, items: seq<Value>, k: nat, s: State, fmt: Format)
    requires k < |items| && WorkOf(s, fmt).Steps?
    ensures WorkOf(Filling(elem, items, k, s), fmt).Steps?
    ensures WorkOf(Completed(Filling(elem, items, k, s), items[k]), fmt).Steps?
  {
  }

  lemma InsertTaken(elem: Type, items: seq<Value>, k: nat, parts: seq<Value>)
    requires k < |items| && HasType(items[k], elem)
    ensures Take(elem, parts + Parts(items[k])) == Taken(items[k], parts) && items[..k] + [items[k]] == items[..k + 1]
  {
    TakeParts(items[k], elem, parts);
  }

  /** A complete element is put into the container, and the next one is scheduled ... */
  lemma InsertNext(elem: Type, items: seq<Value>, k: nat, s: State, fmt: Format)
    requires k + 1 < |items| && HasType(items[k], elem) && WorkOf(s, fmt).Steps?
    ensures Goes(Completed(Filling(elem, items, k, s), items[k]), [],
                 Schedule(elem, Filling(elem, items, k + 1, s)), fmt)
  {
    FillingWorks(elem, items, k, s, fmt);
    InsertTaken(elem, items, k, s.parts);
    StepGoes(Completed(Filling(elem, items, k, s), items[k]), [], Schedule(elem, Filling(elem, items, k + 1, s)), fmt);
  }

  /** ... or the container is complete. */
  lemma InsertLast(elem: Type, items: seq<Value>, k: nat, s: State, fmt: Format)
    requires k + 1 == |items| && HasType(items[k], elem) && WorkOf(s, fmt).Steps?
    ensures Goes(Completed(Filling(elem, items, k, s), items[k]), [], Completed(s, Sequence(false, items)), fmt)
  {
    FillingWorks(elem, items, k, s, fmt);
    InsertTaken(elem, items, k, s.parts);
    assert items[..k + 1] == items;
    StepGoes(Completed(Filling(elem, items, k, s), items[k]), [], Completed(s, Sequence(false, items)), fmt);
  }

  lemma InsertGoes(elem: Type, items: seq<Value>, k: nat, s: State, fmt: Format)
    requires k < |items| && HasType(items[k], elem) && WorkOf(s, fmt).Steps?
    ensures Goes(Completed(Filling(elem, items, k, s), items[k]), [],
                 if k + 1 < |items| then Schedule(elem, Filling(elem, items, k + 1, s))
                 else Completed(s, Sequence(false, items)), fmt)
  {
    if k + 1 < |items| { InsertNext(elem, items, k, s, fmt); } else { InsertLast(elem, items, k, s, fmt); }
  }

  lemma {:induction false} ContainerGoes(elem: Type, items: seq<Value>, k: nat, s: State, fmt: Format)
    requires k < |items| && AllHaveType(items[k..], elem) && AllWithin(items[k..], fmt)
    requires WorkOf(s, fmt).Steps? && Coherent(fmt)
    ensures Goes(Schedule(elem, Filling(elem, items, k, s)), EncodeAll(items[k..], fmt),
                 Completed(s, Sequence(false, items)), fmt)
    decreases items, |items| - k
  {
    Tails(items, k, elem, fmt);
    var at := Filling(elem, items, k, s);
    var head, tail := Encode(items[k], fmt), EncodeAll(items[k + 1..], fmt);
    FillingWorks(elem, items, k, s, fmt);
    ValueGoes(items[k], elem, at, fmt);
    InsertGoes(elem, items, k, s, fmt);
    var done := Completed(s, Sequence(false, items));
    if k + 1 < |items| {
      var next := Schedule(elem, Filling(elem, items, k + 1, s));
      ContainerGoes(elem, items, k + 1, s, fmt);
      GoOn(Completed(at, items[k]), [], next, tail, done, tail, fmt);
      GoOn(Schedule(elem, at), head, Completed(at, items[k]), tail, done, head + tail, fmt);
    } else {
      assert items[k + 1..] == [];
      GoOn(Schedule(elem, at), head, Completed(at, items[k]), [], done, head, fmt);
    }
  }

  /** An array with `k` elements scheduled so far, the last one complete, over the stacks of `s` */
  function Counting(elem: Type, items: seq<Value>, k: nat, s: State): State
    requires k <= |items|
  {
    State(Push(LoadArrayNext(elem, if k == 0 then [] else items[..k - 1]), s.fstk), Push(Words(|items|, k), s.estk),
          if k == 0 then s.parts else s.parts + Parts(items[k - 1]))
  }

  /** ... and before the last one is complete */
  function Loading(elem: Type, items: seq<Value>, k: nat, s: State): State
    requires k < |items|
  {
    State(Push(LoadArrayNext(elem, items[..k]), s.fstk), Push(Words(|items|, k + 1), s.estk), s.parts)
  }

  lemma CountingWorks(elem: Type, items: seq<Value>, k: nat, s: State, fmt: Format)
    requires k <= |items| && WorkOf(s, fmt).Steps?
    ensures WorkOf(Counting(elem, items, k, s), fmt).Steps?
    ensures k < |items| ==> WorkOf(Loading(elem, items, k, s), fmt).Steps?
  {
  }

  /** The last element scheduled is complete: the next one is scheduled. */
  lemma CountNext(elem: Type, items: seq<Value>, k: nat, s: State, fmt: Format)
    requires k < |items| && (k > 0 ==> HasType(items[k - 1], elem)) && WorkOf(s, fmt).Steps?
    ensures Goes(Counting(elem, items, k, s), [], Schedule(elem, Loading(elem, items, k, s)), fmt)
  {
    CountingWorks(elem, items, k, s, fmt);
    CountTaken(elem, items, k, s.parts);
    StepGoes(Counting(elem, items, k, s), [], Schedule(elem, Loading(elem, items, k, s)), fmt);
  }

  /** ... or the array is complete. */
  lemma CountLast(elem: Type, items: seq<Value>, s: State, fmt: Format)
    requires (items != [] ==> HasType(items[|items| - 1], elem)) && WorkOf(s, fmt).Steps?
    ensures Goes(Counting(elem, items, |items|, s), [], Completed(s, Sequence(true, items)), fmt)
  {
    CountingWorks(elem, items, |items|, s, fmt);
    CountTaken(elem, items, |items|, s.parts);
    assert items[..|items|] == items;
    StepGoes(Counting(elem, items, |items|, s), [], Completed(s, Sequence(true, items)), fmt);
  }

  lemma CountTaken(elem: Type, items: seq<Value>, k: nat, parts: seq<Value>)
    requires k <= |items| && (k > 0 ==> HasType(items[k - 1], elem))
    ensures k > 0 ==> Take(elem, parts + Parts(items[k - 1])) == Taken(items[k - 1], parts)
    ensures k > 0 ==> items[..k - 1] + [items[k - 1]] == items[..k]
  {
    if k > 0 { TakeParts(items[k - 1], elem, parts); }
  }

  lemma CountGoes(elem: Type, items: seq<Value>, k: nat, s: State, fmt: Format)
    requires k <= |items| && (k > 0 ==> HasType(items[k - 1], elem)) && WorkOf(s, fmt).Steps?
    ensures Goes(Counting(elem, items, k, s), [],
                 if k < |items| then Schedule(elem, Loading(elem, items, k, s))
                 else Completed(s, Sequence(true, items)), fmt)
  {
    if k < |items| { CountNext(elem, items, k, s, fmt); } else { CountLast(elem, items, s, fmt); }
  }

  lemma {:induction false} ArrayGoes(elem: Type, items: seq<Value>, k: nat, s: State, fmt: Format)
    requires k <= |items| && AllHaveType(items[k..], elem) && AllWithin(items[k..], fmt)
    requires k > 0 ==> HasType(items[k - 1], elem)
    requires WorkOf(s, fmt).Steps? && Coherent(fmt)
    ensures Goes(Counting(elem, items, k, s), EncodeAll(items[k..], fmt), Completed(s, Sequence(true, items)), fmt)
    decreases items, |items| - k
  {
    CountGoes(elem, items, k, s, fmt);
    if k == |items| {
      assert items[k..] == [];
    } else {
      Tails(items, k, elem, fmt);
      var head, tail := Encode(items[k], fmt), EncodeAll(items[k + 1..], fmt);
      var at, done := Loading(elem, items, k, s), Completed(s, Sequence(true, items));
      CountingWorks(elem, items, k, s, fmt);
      ValueGoes(items[k], elem, at, fmt);
      assert Completed(at, items[k]) == Counting(elem, items, k + 1, s);
      ArrayGoes(elem, items, k + 1, s, fmt);
      GoOn(Schedule(elem, at), head, Counting(elem, items, k + 1, s), tail, done, head + tail, fmt);
      GoOn(Counting(elem, items, k, s), [], Schedule(elem, at), head + tail, done, head + tail, fmt);
    }
  }

  /** The size word of a value that is a sequence or null */
  function WordOf(v: Value, fmt: Format): nat {
    if v.Sequence? then fmt.word(|v.items|) else fmt.nullWord
  }

  /** A sequence scheduled over `s`, once its size has been read */
  function SizeKnown(v: Value, t: Type, s: State, fmt: Format): State
    requires t.SequenceType?
  {
    State(Push(if t.isArray then LoadArray(t.elem, t.nullable) else LoadContainerBegin(t.elem, t.nullable), s.fstk),
          Push(Words(WordOf(v, fmt), 0), s.estk), s.parts)
  }

  lemma SizeGoes(v: Value, t: Type, s: State, fmt: Format)
    requires t.SequenceType? && HasType(v, t) && Within(v, fmt) && Coherent(fmt) && WorkOf(s, fmt).Steps?
    ensures Goes(Schedule(t, s), fmt.cross(WordOf(v, fmt)), SizeKnown(v, t, s, fmt), fmt)
  {
    ScheduleCosts(t, s, fmt);
    var w := WordOf(v, fmt);
    assert WordReadsBack(fmt, w);
    if v.Sequence? { assert SizeReadsBack(fmt, |v.items|); }
    if t.isArray {
      CrossGoes(w, Schedule(t, s), Push(LoadArray(t.elem, t.nullable), s.fstk), fmt);
    } else {
      var begin := Push(LoadContainerBegin(t.elem, t.nullable), s.fstk);
      var mid := State(Push(LoadCross([]), begin), Push(Words(0, 0), s.estk), s.parts);
      StepGoes(Schedule(t, s), [], mid, fmt);
      CrossGoes(w, mid, begin, fmt);
      GoOn(Schedule(t, s), [], mid, fmt.cross(w), SizeKnown(v, t, s, fmt), fmt.cross(w), fmt);
    }
  }

  lemma SizedWorks(v: Value, t: Type, s: State, fmt: Format)
    requires t.SequenceType? && WorkOf(s, fmt).Steps?
    ensures WorkOf(SizeKnown(v, t, s, fmt), fmt).Steps?
  {
  }

  lemma NullGoes(v: Value, t: Type, s: State, fmt: Format)
    requires v.Null? && HasType(v, t) && WorkOf(s, fmt).Steps?
    ensures Goes(SizeKnown(v, t, s, fmt), [], Completed(s, v), fmt)
  {
    SizedWorks(v, t, s, fmt);
    StepGoes(SizeKnown(v, t, s, fmt), [], Completed(s, v), fmt);
  }

  lemma ElementsGo(v: Value, t: Type, s: State, fmt: Format)
    requires v.Sequence? && HasType(v, t) && Within(v, fmt) && Coherent(fmt) && WorkOf(s, fmt).Steps?
    ensures Goes(SizeKnown(v, t, s, fmt), EncodeAll(v.items, fmt), Completed(s, v), fmt)
    decreases v.items, |v.items| + 1
  {
    var items, elem := v.items, t.elem;
    var s0 := SizeKnown(v, t, s, fmt);
    SizedWorks(v, t, s, fmt);
    assert SizeReadsBack(fmt, |items|);
    assert SizeRead(WordOf(v, fmt), fmt) == Elements(|items|);
    assert items[0..] == items;
    if t.isArray {
      ArrayGoes(elem, items, 0, s, fmt);
      StepGoes(s0, [], Counting(elem, items, 0, s), fmt);
      GoOn(s0, [], Counting(elem, items, 0, s), EncodeAll(items, fmt), Completed(s, v), EncodeAll(items, fmt), fmt);
    } else if items == [] {
      StepGoes(s0, [], Completed(s, v), fmt);
    } else {
      ContainerGoes(elem, items, 0, s, fmt);
      assert items[..0] == [];
      var next := Schedule(elem, Filling(elem, items, 0, s));
      StepGoes(s0, [], next, fmt);
      GoOn(s0, [], next, EncodeAll(items, fmt), Completed(s, v), EncodeAll(items, fmt), fmt);
    }
  }

  /** A target scheduled over any stacks and fed the encoding of a value of its type becomes that value, and
      the run goes on from exactly those stacks with what follows in the input. */
  lemma {:induction false} ValueGoes(v: Value, t: Type, s: State, fmt: Format)
    requires HasType(v, t) && Within(v, fmt) && Coherent(fmt) && WorkOf(s, fmt).Steps?
    ensures Goes(Schedule(t, s), Encode(v, fmt), Completed(s, v), fmt)
    decreases v, 1
  {
    match v
    case Leaf(b) => LeafGoes(t.size, b, s, fmt);
    case Pair(x, y) => PairGoes(x, y, t, s, fmt);
    case Sequence(_, items) =>
      SizeGoes(v, t, s, fmt);
      ElementsGo(v, t, s, fmt);
      GoOn(Schedule(t, s), fmt.cross(WordOf(v, fmt)), SizeKnown(v, t, s, fmt), EncodeAll(items, fmt), Completed(s, v),
           Encode(v, fmt), fmt);
    case Null(_) =>
      SizeGoes(v, t, s, fmt);
      NullGoes(v, t, s, fmt);
      GoOn(Schedule(t, s), fmt.cross(fmt.nullWord), SizeKnown(v, t, s, fmt), [], Completed(s, v), Encode(v, fmt), fmt);
  }

  lemma ScheduleParts(t: Type, s: State, more: seq<Value>)
    ensures Schedule(t, s.(parts := more)) == Schedule(t, s).(parts := more) && Schedule(t, s).parts == s.parts
  {
  }

  lemma PairGoes(x: Value, y: Value, t: Type, s: State, fmt: Format)
    requires HasType(Pair(x, y), t) && Within(Pair(x, y), fmt) && Coherent(fmt) && WorkOf(s, fmt).Steps?
    ensures Goes(Schedule(t, s), Encode(Pair(x, y), fmt), Completed(s, Pair(x, y)), fmt)
    decreases Pair(x, y), 0
  {
    var s1 := Completed(s, x);
    ScheduleCosts(t.second, s, fmt);
    ValueGoes(x, t.first, Schedule(t.second, s), fmt);
    ValueGoes(y, t.second, s1, fmt);
    PairStates(x, y, t.second, s);
    GoOn(Schedule(t, s), Encode(x, fmt), Schedule(t.second, s1), Encode(y, fmt), Completed(s1, y),
         Encode(Pair(x, y), fmt), fmt);
  }

  lemma PairStates(x: Value, y: Value, t: Type, s: State)
    ensures Completed(Schedule(t, s), x) == Schedule(t, Completed(s, x))
    ensures Completed(Completed(s, x), y) == Completed(s, Pair(x, y))
  {
    ScheduleParts(t, s, s.parts + Parts(x));
    assert (s.parts + Parts(x)) + Parts(y) == s.parts + Parts(Pair(x, y));
  }

  // ---- The round trip

  const IDLE: State := State(Empty, Empty, [])

  /** Every tree within the limits is loaded back from its encoding: run ends with nothing scheduled and both
      stacks empty, the target is the tree, and exactly what follows the encoding is left. */
  lemma LoadsBack(v: Value, t: Type, rest: seq<nat>, fmt: Format)
    requires HasType(v, t) && Within(v, fmt) && Coherent(fmt)
    ensures WorkOf(Schedule(t, IDLE), fmt).Steps?
    ensures Run(Schedule(t, IDLE), Encode(v, fmt) + rest, fmt) == Done(State(Empty, Empty, Parts(v)), rest)
    ensures Take(t, Parts(v)) == Taken(v, [])
  {
    ValueGoes(v, t, IDLE, fmt);
    assert [] + Parts(v) == Parts(v);
    assert GoesWith(Schedule(t, IDLE), Encode(v, fmt), Completed(IDLE, v), rest, fmt);
    TakeParts(v, t, []);
  }
}
