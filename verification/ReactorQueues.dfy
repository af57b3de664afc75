/** How the per-run-id views of the queues change when an entry is appended, removed or foreign. */
module ReactorQueues {
  import opened RunIds
  import opened Reactor

  lemma {:induction false} RaisedAppend(q: seq<RaiseStub>, r: RaiseStub, u: Uid)
    ensures RaisedIn(q + [r], u) == RaisedIn(q, u) + if r.uid == u then [r.event] else []
  {
    if q == [] {
    } else {
      assert (q + [r])[1..] == q[1..] + [r];
      RaisedAppend(q[1..], r, u);
    }
  }

  lemma {:induction false} PushedAppend(q: seq<NewTask>, t: NewTask, u: Uid)
    ensures PushedIn(q + [t], u) == PushedIn(q, u) + if t.uid == u then [t.event] else []
  {
    if q == [] {
    } else {
      assert (q + [t])[1..] == q[1..] + [t];
      PushedAppend(q[1..], t, u);
    }
  }

  lemma {:induction false} QueuedAppend(q: seq<ExecStub>, e: ExecStub, u: Uid)
    ensures QueuedIn(q + [e], u) == QueuedIn(q, u) + if e.uid == u && e.task.OnEvent? then [e.task.event] else []
  {
    if q == [] {
    } else {
      assert (q + [e])[1..] == q[1..] + [e];
      QueuedAppend(q[1..], e, u);
    }
  }

  lemma {:induction false} RaisedNone(q: seq<RaiseStub>, u: Uid)
    requires forall r :: r in q ==> r.uid != u
    ensures RaisedIn(q, u) == []
  {
    if q != [] { RaisedNone(q[1..], u); }
  }

  lemma {:induction false} PushedNone(q: seq<NewTask>, u: Uid)
    requires u !in UidsOf(q)
    ensures PushedIn(q, u) == []
  {
    if q != [] { PushedNone(q[1..], u); }
  }

  lemma {:induction false} QueuedNone(q: seq<ExecStub>, u: Uid)
    requires forall e :: e in q ==> e.uid != u
    ensures QueuedIn(q, u) == []
  {
    if q != [] { QueuedNone(q[1..], u); }
  }

  lemma QueuedSkip(q: seq<ExecStub>, u: Uid)
    requires q != [] && (q[0].uid != u || !q[0].task.OnEvent?)
    ensures QueuedIn(q[1..], u) == QueuedIn(q, u)
  {
  }

  lemma PushedOther(q: seq<NewTask>, t: NewTask, u: Uid)
    requires t.uid != u
    ensures PushedIn(q + [t], u) == PushedIn(q, u)
  {
    PushedAppend(q, t, u);
  }

  // ---- Stop entries

  /** How many entries of `q` are stop entries of `u`: the reposting kind and the final kind. */
  function Reposts(q: seq<ExecStub>, u: Uid): nat {
    if q == [] then 0 else (if q[0].uid == u && q[0].task.StopRepost? then 1 else 0) + Reposts(q[1..], u)
  }

  function Stops(q: seq<ExecStub>, u: Uid): nat {
    if q == [] then 0 else (if q[0].uid == u && q[0].task.StopNow? then 1 else 0) + Stops(q[1..], u)
  }

  /** The events of `u` queued behind its first final stop entry. */
  function Behind(q: seq<ExecStub>, u: Uid): seq<Event> {
    if q == [] then []
    else if q[0].uid == u && q[0].task.StopNow? then QueuedIn(q[1..], u)
    else Behind(q[1..], u)
  }

  lemma {:induction false} StopAppend(q: seq<ExecStub>, e: ExecStub, u: Uid)
    ensures Reposts(q + [e], u) == Reposts(q, u) + if e.uid == u && e.task.StopRepost? then 1 else 0
    ensures Stops(q + [e], u) == Stops(q, u) + if e.uid == u && e.task.StopNow? then 1 else 0
    ensures Stops(q, u) > 0 && e.uid == u && e.task.OnEvent? ==> Behind(q + [e], u) == Behind(q, u) + [e.task.event]
    ensures !(e.uid == u && e.task.OnEvent?) ==> Behind(q + [e], u) == Behind(q, u)
  {
    if q == [] {
    } else {
      assert (q + [e])[1..] == q[1..] + [e];
      StopAppend(q[1..], e, u);
      QueuedAppend(q[1..], e, u);
    }
  }

  lemma {:induction false} StopNone(q: seq<ExecStub>, u: Uid)
    requires forall e :: e in q ==> e.uid != u
    ensures Reposts(q, u) == 0 && Stops(q, u) == 0
  {
    if q != [] { StopNone(q[1..], u); }
  }

  lemma {:induction false} BehindNone(q: seq<ExecStub>, u: Uid)
    requires Stops(q, u) == 0
    ensures Behind(q, u) == []
  {
    if q != [] { BehindNone(q[1..], u); }
  }

  lemma {:induction false} RepostsPrefix(q: seq<ExecStub>, n: nat, u: Uid)
    requires n <= |q|
    ensures Reposts(q[..n], u) <= Reposts(q, u)
  {
    if n > 0 {
      assert q[..n][1..] == q[1..][..n - 1];
      RepostsPrefix(q[1..], n - 1, u);
    }
  }
}
