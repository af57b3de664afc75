/** Serializer and deserializer together, over the format they use. */
module SerialRoundTrip {
  import opened Common
  import opened SerialTree
  import SerialFormat
  import S = Serializer
  import SR = SerializerRuns
  import D = Deserializer
  import DR = DeserializerRuns

  /** For every tree within the limits: what the serializer writes over any buffers that hold it, cut into any
      pieces, is loaded back as the same tree into an empty target, and nothing is left over. */
  lemma RoundTrip(v: Value, t: Type, rooms: seq<nat>, chunks: seq<seq<nat>>, limit: nat, fmt: Format)
    requires fmt == SerialFormat.Binary(limit) && HasType(v, t) && Within(v, fmt)
    requires rooms != [] && |Encode(v, fmt)| <= Total(rooms) && chunks != []
    ensures S.MeaningOf(S.Schedule(v, SR.IDLE), fmt).Means? && D.WorkOf(D.Schedule(t, DR.IDLE), fmt).Steps?
    ensures var r := SR.RunAll(S.Schedule(v, SR.IDLE), rooms, fmt);
            && r.status.Done?
            && (Flat(chunks) == r.out ==>
                DR.RunAll(D.Schedule(t, DR.IDLE), chunks, fmt) == DR.Done(D.State(Empty, Empty, D.Parts(v)), []))
    ensures D.Take(t, D.Parts(v)) == D.Taken(v, [])
  {
    SerialFormat.BinaryIsCoherent(limit);
    SR.WritesEncoding(v, rooms, fmt);
    DR.LoadsBack(v, t, [], fmt);
    assert Encode(v, fmt) + [] == Encode(v, fmt);
    DR.PiecesAreWhole(D.Schedule(t, DR.IDLE), chunks, fmt);
  }
}
