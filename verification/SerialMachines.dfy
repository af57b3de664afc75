/** The run loops of serializer and deserializer, which update the two stacks call by call. */
module SerialMachines {
  import opened SerialTree
  import S = Serializer
  import SR = SerializerRuns
  import D = Deserializer
  import DR = DeserializerRuns

  class BinarySerializer {
    const fmt: Format
    var fstk: Stack<S.Task>
    var estk: Stack<S.Ext>

    function View(): S.State
      reads this
    {
      S.State(fstk, estk)
    }

    ghost predicate Valid()
      reads this
    {
      S.MeaningOf(View(), fmt).Means?
    }

    constructor (fmt: Format)
      ensures this.fmt == fmt && View() == SR.IDLE && Valid()
    {
      this.fmt, fstk, estk := fmt, Empty, Empty;
    }

    /** Scheduling a value: its encoding comes before everything scheduled earlier. */
    method Schedule(v: Value)
      requires Valid()
      modifies this
      ensures Valid() && View() == S.Schedule(v, old(View()))
      ensures S.MeaningOf(View(), fmt).rest == Encode(v, fmt) + old(S.MeaningOf(View(), fmt).rest)
    {
      S.ScheduleAdds(v, View(), fmt);
      var s := S.Schedule(v, View());
      fstk, estk := s.fstk, s.estk;
    }

    /** One call of the top task */
    method Call(room: nat) returns (r: S.Result)
      requires Valid() && fstk.Push?
      modifies this
      ensures r == S.Step(old(View()), room, fmt) && View() == if r.Fail? then old(View()) else r.state
    {
      r := S.Step(View(), room, fmt);
      if !r.Fail? { fstk, estk := r.state.fstk, r.state.estk; }
    }

    /** run over a buffer with `room` bytes: it writes what is scheduled until that is done or the buffer is full, and
        then the serializer is ready for the next buffer. */
    method Run(room: nat) returns (status: SR.Status, out: seq<nat>)
      requires Valid()
      modifies this
      ensures SR.Outcome(status, View(), out) == SR.Run(old(View()), room, fmt)
      ensures status.Failed? ==> !old(S.MeaningOf(View(), fmt).fits)
      ensures !status.Failed? ==> Valid() && out + S.MeaningOf(View(), fmt).rest == old(S.MeaningOf(View(), fmt).rest)
      ensures status.Done? ==> fstk.Empty? && estk.Empty?
      ensures status.Waiting? ==> |out| == room && S.MeaningOf(View(), fmt).rest != []
    {
      SR.RunMeans(View(), room, fmt);
      SR.IdleMeans(fmt);
      status, out := Turns(room);
    }

    /** The loop of run */
    method Turns(room: nat) returns (status: SR.Status, out: seq<nat>)
      requires Valid()
      modifies this
      ensures SR.Outcome(status, View(), out) == SR.Run(old(View()), room, fmt)
    {
      ghost var whole := SR.Run(View(), room, fmt);
      SR.GoesOnFirst(View(), room, fmt);
      out := [];
      while fstk.Push?
        invariant SR.GoesOn(whole, out, View(), room, fmt)
        decreases SR.Work(View(), fmt)
      {
        SR.GoesOnTurn(whole, out, View(), room, fmt);
        var r := Call(room - |out|);
        match r {
          case Next(_, more) => out := out + more;
          case Wait(_, more) => return SR.Waiting, out + more;
          case Fail => return SR.Failed, out;
        }
      }
      SR.GoesOnLast(whole, out, View(), room, fmt);
      return SR.Done, out;
    }
  }

  class BinaryDeserializer {
    const fmt: Format
    var fstk: Stack<D.Task>
    var estk: Stack<D.Ext>
    var parts: seq<Value>

    function View(): D.State
      reads this
    {
      D.State(fstk, estk, parts)
    }

    ghost predicate Valid()
      reads this
    {
      D.WorkOf(View(), fmt).Steps?
    }

    constructor (fmt: Format)
      ensures this.fmt == fmt && View() == DR.IDLE && Valid()
    {
      this.fmt, fstk, estk, parts := fmt, Empty, Empty, [];
    }

    method Schedule(t: Type)
      requires Valid()
      modifies this
      ensures Valid() && View() == D.Schedule(t, old(View()))
    {
      D.ScheduleCosts(t, View(), fmt);
      var s := D.Schedule(t, View());
      fstk, estk, parts := s.fstk, s.estk, s.parts;
    }

    /** run over `input`; terminates whatever the bytes are */
    method Run(input: seq<nat>) returns (r: DR.Outcome)
      requires Valid()
      modifies this
      ensures r == DR.Run(old(View()), input, fmt)
      ensures !r.Failed? ==> Valid() && View() == r.state
      ensures r.Done? ==> fstk.Empty? && estk.Empty?
    {
      var left := input;
      while fstk.Push?
        invariant Valid()
        invariant DR.Run(View(), left, fmt) == DR.Run(old(View()), input, fmt)
        decreases D.WorkOf(View(), fmt).n
      {
        DR.Unfold(View(), left, fmt);
        D.StepProgress(View(), left, fmt);
        match D.Step(View(), left, fmt) {
          case Next(t, used) => fstk, estk, parts, left := t.fstk, t.estk, t.parts, left[used..];
          case Wait(t) =>
            fstk, estk, parts := t.fstk, t.estk, t.parts;
            return DR.Waiting(t);
          case Fail => return DR.Failed;
        }
      }
      return DR.Done(View(), left);
    }
  }
}
