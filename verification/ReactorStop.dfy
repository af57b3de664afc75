/** Where a posted stop is, and which events it will overtake. */
module ReactorStop {
  import opened RunIds
  import opened Reactor
  import opened ReactorQueues
  import opened ReactorInv

  /** The reposting entry of `u`, if any, runs before the vectors are swapped again. */
  ghost predicate Armed(pc: Pc, q: seq<ExecStub>, u: Uid) {
    || pc.Timers? || pc.TimerCall?
    || ((pc.Execs? || pc.ExecCall?) && pc.left <= |q| && Reposts(q[..pc.left], u) == 1)
  }

  /** The one stop entry of a posted stop, with what is not ahead of it: a reposting entry that is
      about to run leaves exactly the late events to be queued behind the final entry, one that is
      not leaves none; behind the final entry are exactly the late events. */
  ghost predicate StopOne(o: ObjectId, q: seq<ExecStub>, pc: Pc, m: Mail, h: History, d: Ids)
    requires o in d.runId
  {
    var u := d.runId[o];
    o !in d.stopped ==>
      if o !in h.late then Reposts(q, u) == 0 && Stops(q, u) == 0
      else if Stops(q, u) == 0 then
        && Reposts(q, u) == 1
        && (if Armed(pc, q, u) then RaisedIn(m.take, u) + RaisedIn(m.fill, u) == h.late[o]
            else h.late[o] == [] && (pc.Events? ==> RaisedIn(m.fill, u) == []))
      else
        && Reposts(q, u) == 0 && Stops(q, u) == 1
        && Behind(q, u) + RaisedIn(m.take, u) + RaisedIn(m.fill, u) == h.late[o]
  }

  ghost predicate InvStop(s: State) {
    forall o :: o in s.ids.runId ==> StopOne(o, s.exeq, s.pc, s.mail, s.history, s.ids)
  }

  // ---- Entries that are no stop of `o`

  predicate StopEntry(e: ExecStub, u: Uid) {
    e.uid == u && (e.task.StopRepost? || e.task.StopNow?)
  }

  lemma PrefixTail(q: seq<ExecStub>, n: nat)
    requires 0 < n <= |q|
    ensures q[..n] == [q[0]] + q[1..][..n - 1]
  {
  }

  /** Removing a front entry while the exec phase counts it. */
  lemma SkipStop(o: ObjectId, q: seq<ExecStub>, left: nat, pc: Pc, m: Mail, h: History, d: Ids)
    requires o in d.runId && 0 < left <= |q|
    requires pc == Execs(left) || (pc.ExecCall? && pc.left == left)
    requires StopOne(o, q, pc, m, h, d) && !StopEntry(q[0], d.runId[o])
    ensures StopOne(o, q[1..], Execs(left - 1), m, h, d)
  {
    PrefixTail(q, left);
    assert q[..left][1..] == q[1..][..left - 1];
  }

  /** Queueing an entry that is neither a stop nor an event of `o`. */
  lemma AppendStop(o: ObjectId, q: seq<ExecStub>, e: ExecStub, pc: Pc, m: Mail, h: History, d: Ids)
    requires o in d.runId && StopOne(o, q, pc, m, h, d)
    requires e.uid != d.runId[o] || e.task.Posted?
    requires pc.Execs? || pc.ExecCall? ==> pc.left <= |q|
    ensures StopOne(o, q + [e], pc, m, h, d)
  {
    StopAppend(q, e, d.runId[o]);
    if pc.Execs? || pc.ExecCall? { assert (q + [e])[..pc.left] == q[..pc.left]; }
  }

  // ---- Steps of other threads

  lemma PushStopNew(q: seq<ExecStub>, pc: Pc, m: Mail, h: History, d: Ids, o: ObjectId, e: Event)
    requires InvIds(d) && InvKnown(q, m, d) && o !in d.runId && o !in h.late
    ensures StopOne(o, q, pc, m, h, PopFor(d, o, e))
  {
    NextUidUnknown(d);
    forall x | x in q ensures x.uid != NextUid(d) { assert KnownExec(x, d); }
    StopNone(q, NextUid(d));
  }

  lemma RaiseStop(q: seq<ExecStub>, pc: Pc, m: Mail, h: History, d: Ids, o: ObjectId, e: Event, p: ObjectId)
    requires RunIdsDistinct(d) && o in d.runId && o !in h.late && p in d.runId && StopOne(p, q, pc, m, h, d)
    ensures StopOne(p, q, pc, m.(fill := m.fill + [RaiseStub(d.runId[o], e)], size := |m.fill| + 1), h, d)
  {
    if p != o { RaisedAppend(m.fill, RaiseStub(d.runId[o], e), d.runId[p]); }
  }

  // ---- Fetching

  lemma SwapStop(o: ObjectId, q: seq<ExecStub>, pc: Pc, m: Mail, h: History, d: Ids, next: Pc)
    requires o in d.runId && StopOne(o, q, pc, m, h, d) && m.take == [] && (pc.Waiting? || pc.Blocked?)
    requires next == Events || (next == Timers && m.fill == [])
    ensures StopOne(o, q, next, Mail([], m.fill, 0), h, d)
    ensures m.fill == [] ==> StopOne(o, q, next, m, h, d)
  {
  }

  lemma EnqueueStop(o: ObjectId, q: seq<ExecStub>, m: Mail, h: History, d: Ids)
    requires o in d.runId && StopOne(o, q, Events, m, h, d) && m.take != []
    ensures StopOne(o, q + [ExecStub(m.take[0].uid, OnEvent(m.take[0].event), DUMMY_HANDLER)], Events,
                    m.(take := m.take[1..]), h, d)
  {
    var e := ExecStub(m.take[0].uid, OnEvent(m.take[0].event), DUMMY_HANDLER);
    var u := d.runId[o];
    StopAppend(q, e, u);
    if o in h.late && Stops(q, u) > 0 && e.uid == u {
      assert RaisedIn(m.take, u) == [e.task.event] + RaisedIn(m.take[1..], u);
      assert Behind(q + [e], u) + RaisedIn(m.take[1..], u) == Behind(q, u) + RaisedIn(m.take, u);
    }
  }

  // ---- Stopping

  /** Running the reposting entry puts the final entry behind everything but the late events. */
  lemma RepostStop(o: ObjectId, q: seq<ExecStub>, left: nat, m: Mail, h: History, d: Ids)
    requires o in d.runId && 0 < left <= |q| && StopOne(o, q, Execs(left), m, h, d)
    requires q[0].uid == d.runId[o] && q[0].task.StopRepost?
    ensures StopOne(o, q[1..] + [ExecStub(d.runId[o], StopNow, DUMMY_HANDLER)], Execs(left - 1), m, h, d)
  {
    var u := d.runId[o];
    var e := ExecStub(u, StopNow, DUMMY_HANDLER);
    if o !in d.stopped {
      assert Stops(q[1..], u) == 0 && Reposts(q[1..], u) == 0;
      PrefixTail(q, left);
      assert q[..left][1..] == q[1..][..left - 1];
      RepostsPrefix(q[1..], left - 1, u);
      BehindNone(q[1..], u);
      StopAppend(q[1..], e, u);
    }
  }

  /** When the final entry runs, exactly the late events are outstanding. */
  lemma FinalStop(o: ObjectId, q: seq<ExecStub>, left: nat, m: Mail, h: History, d: Ids)
    requires o in d.runId && o !in d.stopped && 0 < left <= |q| && StopOne(o, q, Execs(left), m, h, d)
    requires q[0].uid == d.runId[o] && q[0].task.StopNow? && !Pending(d, d.runId[o])
    ensures o in h.late && Outstanding(d.runId[o], q[1..], d, m) == h.late[o]
  {
    PushedNone(d.pushTake, d.runId[o]);
    PushedNone(d.pushFill, d.runId[o]);
  }

  /** Posting a stop: in a timer callback the fill vector's events of the object become its late
      events, in an exec callback there are none. */
  lemma PostStopOwn(o: ObjectId, q: seq<ExecStub>, pc: Pc, m: Mail, h: History, d: Ids)
    requires o in d.runId && o !in h.late && StopOne(o, q, pc, m, h, d) && m.take == []
    requires pc.TimerCall? || (pc.ExecCall? && pc.left <= |q|)
    ensures var u := d.runId[o];
            StopOne(o, q + [ExecStub(u, StopRepost, DUMMY_HANDLER)], pc, m,
                    h.(late := h.late[o := if pc.TimerCall? then RaisedIn(m.fill, u) else []]), d)
  {
    var u := d.runId[o];
    var e := ExecStub(u, StopRepost, DUMMY_HANDLER);
    StopAppend(q, e, u);
    if pc.ExecCall? {
      assert (q + [e])[..pc.left] == q[..pc.left];
      RepostsPrefix(q, pc.left, u);
    }
  }
}
