/** Slots are never in two places and ids never name two objects, in every run. */
module ObjectIdsRuns {
  import opened Common
  import opened Chunks
  import opened ObjectIds

  // ---- One service's view of the places

  lemma ServiceElsewhere(v: Svc, r: Service, place: seq<Place>, i: nat, p: Place)
    requires ServiceOne(v, r, place) && i < |place|
    requires place[i] != Fresh(v) && place[i] != Cached(v) && p != Fresh(v) && p != Cached(v)
    ensures ServiceOne(v, r, place[i := p])
  {
  }

  lemma ServiceCaches(v: Svc, r: Service, place: seq<Place>, i: nat)
    requires ServiceOne(v, r, place) && i < |place| && place[i] != Fresh(v) && place[i] != Cached(v)
    ensures ServiceOne(v, r.(cache := r.cache + [i]), place[i := Cached(v)])
  {
    assert i !in r.cache;
    var q := r.cache + [i];
    assert forall k :: k in q <==> k in r.cache || k == i;
  }

  lemma ServiceUncaches(v: Svc, r: Service, place: seq<Place>, p: Place)
    requires ServiceOne(v, r, place) && r.cache != [] && p != Fresh(v) && p != Cached(v)
    ensures r.cache[|r.cache| - 1] < |place| && place[r.cache[|r.cache| - 1]] == Cached(v)
    ensures ServiceOne(v, r.(cache := r.cache[..|r.cache| - 1]), place[r.cache[|r.cache| - 1] := p])
  {
    var n := |r.cache| - 1;
    var i := r.cache[n];
    assert i in r.cache;
    var q := r.cache[..n];
    assert r.cache == q + [i];
    assert i !in q;
    assert forall k :: k in r.cache <==> k in q || k == i;
  }

  lemma ServiceUses(v: Svc, r: Service, place: seq<Place>, p: Place)
    requires ServiceOne(v, r, place) && r.crt < r.end && p != Fresh(v) && p != Cached(v)
    ensures place[r.crt] == Fresh(v)
    ensures ServiceOne(v, r.(crt := r.crt + 1), place[r.crt := p])
  {
  }

  lemma ServiceGrows(v: Svc, r: Service, place: seq<Place>, n: nat, w: Svc)
    requires ServiceOne(v, r, place) && (v != w || r.crt >= r.end)
    ensures var more := place + seq(n, i => Fresh(w));
            if v != w then ServiceOne(v, r, more)
            else ServiceOne(v, r.(crt := |place|, end := |place| + n), more)
  {
    var more := place + seq(n, i => Fresh(w));
    assert forall i :: 0 <= i < |place| ==> more[i] == place[i];
    assert forall i :: |place| <= i < |more| ==> more[i] == Fresh(w);
  }

  // ---- Taking a slot

  /** After any of the three ways of choosing a slot, `i` was free for service `v` and is now taken. */
  lemma TakeServices(s: State, t: Tid, v: Svc, o: Obj)
    requires InvServices(s) && CanTake(s, t, v, o) && 0 < s.chunkSize && |s.place| == |s.slots|
    ensures InvServices(DoTake(s, t, v, o))
  {
    var n := DoTake(s, t, v, o);
    var r := s.services[v];
    assert ServiceOne(v, r, s.place);
    forall w | w in n.services ensures ServiceOne(w, n.services[w], n.place) {
      assert ServiceOne(w, s.services[w], s.place);
      if r.cache != [] { TakeCachedServices(s, t, v, o, w); }
      else if r.crt < r.end { TakeUnusedServices(s, t, v, o, w); }
      else { TakeNewServices(s, t, v, o, w); }
    }
  }

  lemma TakeCachedServices(s: State, t: Tid, v: Svc, o: Obj, w: Svc)
    requires CanTake(s, t, v, o) && w in s.services && s.services[v].cache != []
    requires ServiceOne(w, s.services[w], s.place) && ServiceOne(v, s.services[v], s.place)
    ensures var n := DoTake(s, t, v, o); ServiceOne(w, n.services[w], n.place)
  {
    var r := s.services[v];
    ServiceUncaches(v, r, s.place, Taken(t));
    if w != v { ServiceElsewhere(w, s.services[w], s.place, r.cache[|r.cache| - 1], Taken(t)); }
  }

  lemma TakeUnusedServices(s: State, t: Tid, v: Svc, o: Obj, w: Svc)
    requires CanTake(s, t, v, o) && w in s.services && s.services[v].cache == []
    requires s.services[v].crt < s.services[v].end
    requires ServiceOne(w, s.services[w], s.place) && ServiceOne(v, s.services[v], s.place)
    ensures var n := DoTake(s, t, v, o); ServiceOne(w, n.services[w], n.place)
  {
    var r := s.services[v];
    ServiceUses(v, r, s.place, Taken(t));
    if w != v { ServiceElsewhere(w, s.services[w], s.place, r.crt, Taken(t)); }
  }

  lemma TakeNewServices(s: State, t: Tid, v: Svc, o: Obj, w: Svc)
    requires CanTake(s, t, v, o) && 0 < s.chunkSize && |s.place| == |s.slots| && w in s.services
    requires ServiceOne(w, s.services[w], s.place) && s.services[v].cache == []
             && s.services[v].crt >= s.services[v].end
    ensures var n := DoTake(s, t, v, o); ServiceOne(w, n.services[w], n.place)
  {
    var more := s.place + seq(s.chunkSize, i => Fresh(v));
    ServiceGrows(w, s.services[w], s.place, s.chunkSize, v);
    if w != v {
      ServiceElsewhere(w, s.services[w], more, |s.place|, Taken(t));
    } else {
      ServiceUses(v, s.services[v].(crt := |s.place|, end := |s.place| + s.chunkSize), more, Taken(t));
    }
  }

  /** The slot a registration takes: free until now, in a chunk of the same service. */
  ghost predicate Took(s: State, n: State, t: Tid, v: Svc, o: Obj) {
    && t in n.taken && n.taken == s.taken[t := n.taken[t]]
    && n.taken[t].svc == v && n.taken[t].obj == o && n.taken[t].index < |n.place|
    && n.place[n.taken[t].index] == Taken(t)
    && |s.place| <= |n.place|
    && (n.taken[t].index < |s.place| ==> ServiceOf(s.place[n.taken[t].index], s) == Some(v)
                                         && (s.place[n.taken[t].index].Fresh? || s.place[n.taken[t].index].Cached?))
    && (forall i :: 0 <= i < |s.place| && i != n.taken[t].index ==> n.place[i] == s.place[i])
    && (forall i :: |s.place| <= i < |n.place| && i != n.taken[t].index ==> n.place[i] == Fresh(v))
    && n.clearing == s.clearing && n.ids == s.ids && n.issued == s.issued && n.chunkSize == s.chunkSize
    && n.services.Keys == s.services.Keys && (forall w :: w in s.services && w != v ==> n.services[w] == s.services[w])
    && v in n.services && n.services[v].lock == Some(t)
    && |n.slots| == |n.place| && |s.slots| == |s.place|
    && (forall i :: 0 <= i < |s.slots| ==> n.slots[i] == s.slots[i])
    && (forall i :: |s.slots| <= i < |n.slots| ==> n.slots[i] == Slot(None, false, 0))
  }

  lemma TakeTook(s: State, t: Tid, v: Svc, o: Obj)
    requires InvServices(s) && CanTake(s, t, v, o) && 0 < s.chunkSize && |s.place| == |s.slots|
    ensures Took(s, DoTake(s, t, v, o), t, v, o)
  {
    var r := s.services[v];
    assert ServiceOne(v, r, s.place);
    if r.cache != [] {
      assert r.cache[|r.cache| - 1] in r.cache;
      HoldTook(s, t, Pending(v, r.cache[|r.cache| - 1], o), r.(cache := r.cache[..|r.cache| - 1]));
    } else if r.crt < r.end {
      HoldTook(s, t, Pending(v, r.crt, o), r.(crt := r.crt + 1));
    } else {
      TakeTookNew(s, t, v, o);
    }
  }

  lemma HoldTook(s: State, t: Tid, p: Pending, r: Service)
    requires p.svc in s.services && p.index < |s.place| == |s.slots|
    requires s.place[p.index] == Fresh(p.svc) || s.place[p.index] == Cached(p.svc)
    ensures Took(s, Hold(s, t, p, r), t, p.svc, p.obj)
  {
  }

  lemma TakeTookNew(s: State, t: Tid, v: Svc, o: Obj)
    requires CanTake(s, t, v, o) && 0 < s.chunkSize && |s.place| == |s.slots|
    requires s.services[v].cache == [] && s.services[v].crt >= s.services[v].end
    ensures Took(s, DoTake(s, t, v, o), t, v, o)
  {
    var n := DoTake(s, t, v, o);
    assert |n.place| == |s.place| + s.chunkSize;
  }

  lemma TakeTaken(s: State, n: State, t: Tid, v: Svc, o: Obj)
    requires InvTaken(s) && CanTake(s, t, v, o) && Took(s, n, t, v, o)
    ensures InvTaken(n)
  {
    forall u | u in n.taken ensures TakenOne(u, n) {
      if u != t { assert TakenOne(u, s); }
    }
  }

  lemma TakeLocks(s: State, n: State, t: Tid, v: Svc, o: Obj)
    requires InvLocks(s) && CanTake(s, t, v, o) && Took(s, n, t, v, o)
    ensures InvLocks(n)
  {
  }

  lemma TakeClearing(s: State, n: State, t: Tid, v: Svc, o: Obj)
    requires InvClearing(s) && Took(s, n, t, v, o)
    ensures InvClearing(n)
  {
  }

  lemma TakeSlots(s: State, n: State, t: Tid, v: Svc, o: Obj)
    requires |s.slots| == |s.place| && InvSlots(s) && CanTake(s, t, v, o) && Took(s, n, t, v, o)
    ensures InvSlots(n)
  {
    forall i | 0 <= i < |n.slots| ensures SlotOne(i, n) {
      if i < |s.slots| { assert SlotOne(i, s); }
    }
  }

  lemma TakeIssued(s: State, n: State, t: Tid, v: Svc, o: Obj)
    requires InvIssued(s) && Took(s, n, t, v, o)
    ensures InvIssued(n)
  {
  }

  /** Chunk bookkeeping after a take: unchanged, or one chunk more, owned by the service. */
  ghost predicate Chunked(s: State, n: State, v: Svc) {
    && |s.chunkSvc| == |s.owner| && |n.chunkSvc| == |n.owner|
    && (n.owner == s.owner || n.owner == s.owner + [v])
    && (forall c :: 0 <= c < |s.owner| ==> n.chunkSvc[c] == s.chunkSvc[c])
  }

  lemma TakeShape(s: State, t: Tid, v: Svc, o: Obj)
    requires InvShape(s) && CanTake(s, t, v, o)
    ensures var n := DoTake(s, t, v, o); InvShape(n) && Chunked(s, n, v)
    ensures var n := DoTake(s, t, v, o);
            if n.owner == s.owner then |n.place| == |s.place| else |n.place| == |s.owner| * s.chunkSize + s.chunkSize
  {
    OneMoreChunk(|s.owner|, s.chunkSize);
    TakeSizes(s, t, v, o);
  }

  lemma TakeSizes(s: State, t: Tid, v: Svc, o: Obj)
    requires CanTake(s, t, v, o) && |s.place| == |s.slots| && |s.chunkSvc| == |s.owner| == |s.objCnt|
    ensures var n := DoTake(s, t, v, o);
            && n.services.Keys == s.services.Keys && n.chunkSize == s.chunkSize
            && |n.place| == |n.slots| && |n.chunkSvc| == |n.owner| == |n.objCnt| && Chunked(s, n, v)
            && (n.owner == s.owner ==> |n.place| == |s.place|)
            && (n.owner != s.owner ==> |n.place| == |s.place| + s.chunkSize && n.chunkSvc == s.chunkSvc + [None])
  {
    var r := s.services[v];
    if r.cache != [] {
      HoldKeeps(s, t, Pending(v, r.cache[|r.cache| - 1], o), r.(cache := r.cache[..|r.cache| - 1]));
    } else if r.crt < r.end {
      HoldKeeps(s, t, Pending(v, r.crt, o), r.(crt := r.crt + 1));
    } else {
      NewChunkSizes(s, v);
      HoldKeeps(WithChunk(s, v), t, Pending(v, |s.slots|, o),
                r.(crt := |s.slots| + 1, end := |s.slots| + s.chunkSize));
    }
  }

  /** Holding a slot leaves the chunks alone. */
  lemma HoldKeeps(s: State, t: Tid, p: Pending, r: Service)
    requires p.svc in s.services
    ensures var n := Hold(s, t, p, r);
            && n.slots == s.slots && |n.place| == |s.place| && n.chunkSvc == s.chunkSvc && n.objCnt == s.objCnt
            && n.owner == s.owner && n.chunkSize == s.chunkSize && n.services.Keys == s.services.Keys
            && n.links == s.links
  {
  }

  lemma NewChunkSizes(s: State, v: Svc)
    requires |s.chunkSvc| == |s.owner|
    ensures var n := WithChunk(s, v);
            && |n.slots| == |s.slots| + s.chunkSize && |n.place| == |s.place| + s.chunkSize
            && n.services == s.services && Chunked(s, n, v) && n.owner == s.owner + [v] && n.owner != s.owner
            && |n.chunkSvc| == |s.chunkSvc| + 1 && |n.objCnt| == |s.objCnt| + 1
  {
    assert |s.owner + [v]| == |s.owner| + 1;
  }

  lemma TakeOwner(s: State, n: State, t: Tid, v: Svc, o: Obj)
    requires InvShape(s) && InvShape(n) && InvOwner(s) && InvSlots(s) && CanTake(s, t, v, o)
    requires Took(s, n, t, v, o) && Chunked(s, n, v)
    requires if n.owner == s.owner then |n.place| == |s.place| else |n.place| == |s.owner| * s.chunkSize + s.chunkSize
    ensures InvOwner(n)
  {
    forall i | 0 <= i < |n.place| ensures OwnerOne(i, ChunkOf(i, n.chunkSize), n) {
      if i < |s.place| { assert SlotOne(i, s) && OwnerOne(i, ChunkOf(i, s.chunkSize), s); }
      TakeOwnerAt(s, n, t, v, o, i);
    }
  }

  lemma TakeOwnerAt(s: State, n: State, t: Tid, v: Svc, o: Obj, i: nat)
    requires Chunked(s, n, v) && |s.slots| == |s.place| && CanTake(s, t, v, o) && Took(s, n, t, v, o) && i < |n.place|
    requires 0 < s.chunkSize && |s.place| == |s.owner| * s.chunkSize
    requires if n.owner == s.owner then |n.place| == |s.place| else |n.place| == |s.owner| * s.chunkSize + s.chunkSize
    requires i < |s.place| ==> SlotOne(i, s) && OwnerOne(i, ChunkOf(i, s.chunkSize), s)
    ensures OwnerOne(i, ChunkOf(i, n.chunkSize), n)
  {
    if i < |s.place| {
      TakeOwnerOld(s, n, t, v, o, i, ChunkOf(i, s.chunkSize));
    } else {
      ChunkIs(i, |s.owner|, s.chunkSize);
    }
  }

  lemma TakeOwnerOld(s: State, n: State, t: Tid, v: Svc, o: Obj, i: nat, c: nat)
    requires Chunked(s, n, v) && |s.slots| == |s.place| && CanTake(s, t, v, o) && Took(s, n, t, v, o) && i < |s.place|
    requires SlotOne(i, s) && OwnerOne(i, c, s)
    ensures OwnerOne(i, c, n)
  {
  }

  // ---- Occupancy counts

  lemma {:induction false} OccupiedUpdate(q: seq<Slot>, j: nat, x: Slot)
    requires j < |q|
    ensures Occupied(q[j := x]) == Occupied(q) - (if q[j].obj.Some? then 1 else 0) + (if x.obj.Some? then 1 else 0)
  {
    if j > 0 {
      assert q[j := x][1..] == q[1..][j - 1 := x];
      OccupiedUpdate(q[1..], j - 1, x);
    }
  }

  lemma {:induction false} OccupiedEmpty(q: seq<Slot>)
    requires forall i :: 0 <= i < |q| ==> q[i].obj.None?
    ensures Occupied(q) == 0
  {
    if q != [] { OccupiedEmpty(q[1..]); }
  }

  /** A chunk below the last one lies within the slots. */
  lemma ChunkFits(c: nat, n: nat, k: nat)
    requires c < n
    ensures c * k + k <= n * k
  {
    MulGrows(c + 1, n, k);
  }

  /** Changing slot `i` changes the occupancy of its own chunk only. */
  lemma ChunkUpdate(q: seq<Slot>, i: nat, x: Slot, c: nat, n: nat, k: nat)
    requires 0 < k && |q| == n * k && i < |q| && c < n
    ensures Occupied(ChunkAt(q[i := x], c * k, k)) ==
            if ChunkOf(i, k) == c
            then Occupied(ChunkAt(q, c * k, k)) - (if q[i].obj.Some? then 1 else 0) + (if x.obj.Some? then 1 else 0)
            else Occupied(ChunkAt(q, c * k, k))
  {
    ChunkFits(c, n, k);
    var at := c * k;
    if at <= i < at + k {
      ChunkIs(i, c, k);
      assert ChunkAt(q[i := x], at, k) == ChunkAt(q, at, k)[i - at := x];
      OccupiedUpdate(ChunkAt(q, at, k), i - at, x);
    } else {
      assert ChunkAt(q[i := x], at, k) == ChunkAt(q, at, k);
      if ChunkOf(i, k) == c { ChunkBounds(i, k); }
    }
  }

  /** What taking a slot does to slots and counts: nothing, or one more chunk of slots without objects. */
  predicate Grew(s: State, n: State) {
    && n.chunkSize == s.chunkSize
    && (|| (n.slots == s.slots && n.objCnt == s.objCnt)
        || (|n.slots| == |s.slots| + s.chunkSize && n.slots[..|s.slots|] == s.slots && n.objCnt == s.objCnt + [0]
            && forall i :: |s.slots| <= i < |n.slots| ==> n.slots[i].obj.None?))
  }

  lemma TakeGrew(s: State, t: Tid, v: Svc, o: Obj)
    requires CanTake(s, t, v, o)
    ensures Grew(s, DoTake(s, t, v, o))
  {
  }

  lemma TakeCounts(s: State, n: State)
    requires InvShape(s) && InvCounts(s) && InvShape(n) && Grew(s, n)
    ensures InvCounts(n)
  {
    var k := s.chunkSize;
    forall c | 0 <= c < |n.objCnt| ensures n.objCnt[c] == Occupied(ChunkAt(n.slots, c * k, k)) {
      TakeCountAt(s, n, c);
    }
  }

  lemma TakeCountAt(s: State, n: State, c: nat)
    requires InvShape(s) && InvCounts(s) && Grew(s, n) && c < |n.objCnt|
    ensures n.objCnt[c] == Occupied(ChunkAt(n.slots, c * s.chunkSize, s.chunkSize))
  {
    var k := s.chunkSize;
    if c < |s.owner| {
      ChunkFits(c, |s.owner|, k);
      assert s.objCnt[c] == Occupied(ChunkAt(s.slots, c * k, k));
      assert ChunkAt(n.slots, c * k, k) == ChunkAt(s.slots, c * k, k);
    } else {
      assert c * k == |s.slots|;
      OccupiedEmpty(ChunkAt(n.slots, c * k, k));
    }
  }

  lemma TakeStep(s: State, t: Tid, v: Svc, o: Obj)
    requires Inv(s) && CanTake(s, t, v, o)
    ensures Inv(DoTake(s, t, v, o))
  {
    var n := DoTake(s, t, v, o);
    TakeTook(s, t, v, o);
    TakeShape(s, t, v, o);
    TakeOwner(s, n, t, v, o);
    TakeGrew(s, t, v, o);
    TakeCounts(s, n);
    TakeServices(s, t, v, o);
    TakeTaken(s, n, t, v, o);
    TakeLocks(s, n, t, v, o);
    TakeClearing(s, n, t, v, o);
    TakeSlots(s, n, t, v, o);
    TakeIssued(s, n, t, v, o);
  }

  // ---- Moving one slot to another place

  /** The change a step makes to one slot and to its chunk's count. */
  predicate CountsFollow(s: State, n: State, i: nat, d: nat) {
    && n.chunkSize == s.chunkSize && i < |s.slots| && |n.slots| == |s.slots| && n.slots == s.slots[i := n.slots[i]]
    && d < |s.objCnt| && |n.objCnt| == |s.objCnt| && n.objCnt == s.objCnt[d := n.objCnt[d]]
    && n.objCnt[d] + (if s.slots[i].obj.Some? then 1 else 0) == s.objCnt[d] + (if n.slots[i].obj.Some? then 1 else 0)
  }

  lemma CountsMove(s: State, n: State, i: nat, d: nat)
    requires InvShape(s) && InvShape(n) && InvCounts(s) && CountsFollow(s, n, i, d) && d == ChunkOf(i, s.chunkSize)
    ensures InvCounts(n)
  {
    forall c | 0 <= c < |n.objCnt| ensures n.objCnt[c] == Occupied(ChunkAt(n.slots, c * n.chunkSize, n.chunkSize)) {
      assert s.objCnt[c] == Occupied(ChunkAt(s.slots, c * s.chunkSize, s.chunkSize));
      ChunkUpdate(s.slots, i, n.slots[i], c, |s.owner|, s.chunkSize);
      CountAt(s, n, i, d, c, ChunkAt(s.slots, c * s.chunkSize, s.chunkSize),
              ChunkAt(n.slots, c * s.chunkSize, s.chunkSize));
    }
  }

  lemma CountAt(s: State, n: State, i: nat, d: nat, c: nat, was: seq<Slot>, now: seq<Slot>)
    requires CountsFollow(s, n, i, d) && c < |s.objCnt| && s.objCnt[c] == Occupied(was)
    requires Occupied(now) ==
             if d == c
             then Occupied(was) - (if s.slots[i].obj.Some? then 1 else 0) + (if n.slots[i].obj.Some? then 1 else 0)
             else Occupied(was)
    ensures n.objCnt[c] == Occupied(now)
  {
  }

  /** Where the slot of a registration in progress is, and whose chunk it is in. */
  ghost predicate AtFinish(s: State, t: Tid) {
    && CanFinish(s, t) && s.place[s.taken[t].index] == Taken(t) && s.slots[s.taken[t].index].obj.None?
    && ChunkOf(s.taken[t].index, s.chunkSize) < |s.owner|
    && s.owner[ChunkOf(s.taken[t].index, s.chunkSize)] == s.taken[t].svc && s.services[s.taken[t].svc].lock == Some(t)
    && s.taken[t].obj !in s.ids
  }

  lemma TakenAt(s: State, t: Tid)
    requires InvShape(s) && InvTaken(s) && InvSlots(s) && InvOwner(s) && t in s.taken
    ensures AtFinish(s, t)
  {
    assert TakenOne(t, s);
    var i := s.taken[t].index;
    assert SlotOne(i, s);
    assert OwnerOne(i, ChunkOf(i, s.chunkSize), s);
  }

  lemma FinishShape(s: State, t: Tid, ok: bool)
    requires InvShape(s) && AtFinish(s, t)
    ensures InvShape(DoFinish(s, t, ok))
  {
  }

  lemma FinishServices(s: State, t: Tid, ok: bool)
    requires InvServices(s) && AtFinish(s, t)
    ensures InvServices(DoFinish(s, t, ok))
  {
    var n := DoFinish(s, t, ok);
    var p := s.taken[t];
    forall w | w in n.services ensures ServiceOne(w, n.services[w], n.place) {
      assert ServiceOne(w, s.services[w], s.place);
      if !ok && w == p.svc { ServiceCaches(w, s.services[w], s.place, p.index); }
      else { ServiceElsewhere(w, s.services[w], s.place, p.index, n.place[p.index]); }
    }
  }

  lemma FinishTaken(s: State, t: Tid, ok: bool)
    requires InvTaken(s) && AtFinish(s, t)
    ensures InvTaken(DoFinish(s, t, ok))
  {
    var n := DoFinish(s, t, ok);
    forall u | u in n.taken ensures TakenOne(u, n) { assert TakenOne(u, s); }
  }

  lemma FinishLocks(s: State, t: Tid, ok: bool)
    requires InvLocks(s) && AtFinish(s, t)
    ensures InvLocks(DoFinish(s, t, ok))
  {
  }

  lemma FinishClearing(s: State, t: Tid, ok: bool)
    requires InvClearing(s) && AtFinish(s, t)
    ensures InvClearing(DoFinish(s, t, ok))
  {
  }

  lemma FinishSlots(s: State, t: Tid, ok: bool)
    requires InvShape(s) && InvSlots(s) && AtFinish(s, t)
    ensures InvSlots(DoFinish(s, t, ok))
  {
    var n := DoFinish(s, t, ok);
    forall i | 0 <= i < |n.slots| ensures SlotOne(i, n) { assert SlotOne(i, s); }
  }

  /** The id a registration returns was never returned before. */
  lemma FreshId(s: State, t: Tid)
    requires InvIssued(s) && AtFinish(s, t)
    ensures Id(s.taken[t].index, s.slots[s.taken[t].index].unique) !in s.issued
  {
  }

  lemma FinishIssued(s: State, t: Tid, ok: bool)
    requires InvIssued(s) && AtFinish(s, t)
    ensures InvIssued(DoFinish(s, t, ok))
  {
  }

  lemma FinishOwner(s: State, t: Tid, ok: bool)
    requires InvShape(s) && InvOwner(s) && InvSlots(s) && AtFinish(s, t) && InvShape(DoFinish(s, t, ok))
    ensures InvOwner(DoFinish(s, t, ok))
  {
    var n := DoFinish(s, t, ok);
    forall i | 0 <= i < |n.place| ensures OwnerOne(i, ChunkOf(i, n.chunkSize), n) {
      assert SlotOne(i, s) && OwnerOne(i, ChunkOf(i, s.chunkSize), s);
      FinishOwnerAt(s, t, ok, i, ChunkOf(i, s.chunkSize));
    }
  }

  lemma FinishOwnerAt(s: State, t: Tid, ok: bool, i: nat, c: nat)
    requires AtFinish(s, t) && i < |s.place| && |s.slots| == |s.place| && |s.chunkSvc| == |s.owner|
    requires SlotOne(i, s) && OwnerOne(i, c, s)
    requires i == s.taken[t].index ==> c == ChunkOf(s.taken[t].index, s.chunkSize)
    ensures OwnerOne(i, c, DoFinish(s, t, ok))
  {
  }

  lemma FinishCounts(s: State, t: Tid, ok: bool)
    requires InvShape(s) && InvCounts(s) && AtFinish(s, t) && InvShape(DoFinish(s, t, ok))
    ensures InvCounts(DoFinish(s, t, ok))
  {
    CountsMove(s, DoFinish(s, t, ok), s.taken[t].index, ChunkOf(s.taken[t].index, s.chunkSize));
  }

  lemma FinishStep(s: State, t: Tid, ok: bool)
    requires Inv(s) && CanFinish(s, t)
    ensures Inv(DoFinish(s, t, ok))
  {
    TakenAt(s, t);
    FinishShape(s, t, ok);
    FinishServices(s, t, ok);
    FinishTaken(s, t, ok);
    FinishLocks(s, t, ok);
    FinishClearing(s, t, ok);
    FinishSlots(s, t, ok);
    FinishIssued(s, t, ok);
    FinishOwner(s, t, ok);
    FinishCounts(s, t, ok);
  }

  // ---- Unregistering

  lemma {:induction false} OccupiedPositive(q: seq<Slot>, j: nat)
    requires j < |q| && q[j].obj.Some?
    ensures Occupied(q) > 0
  {
    if j > 0 { OccupiedPositive(q[1..], j - 1); }
  }

  /** A registered object's slot: its chunk's svcidx is set (the assertion of unregisterObject) and
      its chunk's count is positive. */
  ghost predicate AtClear(s: State, o: Obj) {
    && o in s.ids && s.ids[o] < |s.slots| && s.ids[o] < |s.place| && s.place[s.ids[o]] == Registered(o)
    && s.slots[s.ids[o]].obj == Some(o)
    && 0 < s.chunkSize && ChunkOf(s.ids[o], s.chunkSize) < |s.chunkSvc| && ChunkOf(s.ids[o], s.chunkSize) < |s.objCnt|
    && ChunkOf(s.ids[o], s.chunkSize) < |s.owner|
    && s.chunkSvc[ChunkOf(s.ids[o], s.chunkSize)] == Some(s.owner[ChunkOf(s.ids[o], s.chunkSize)])
    && s.owner[ChunkOf(s.ids[o], s.chunkSize)] in s.services
    && 0 < s.objCnt[ChunkOf(s.ids[o], s.chunkSize)]
  }

  lemma CountPositive(s: State, i: nat)
    requires InvShape(s) && InvCounts(s) && i < |s.slots| && s.slots[i].obj.Some?
             && ChunkOf(i, s.chunkSize) < |s.objCnt|
    ensures 0 < s.objCnt[ChunkOf(i, s.chunkSize)]
  {
    var k := s.chunkSize;
    var c := ChunkOf(i, k);
    ChunkBounds(i, k);
    ChunkFits(c, |s.owner|, k);
    OccupiedPositive(ChunkAt(s.slots, c * k, k), i - c * k);
  }

  lemma RegisteredAt(s: State, o: Obj)
    requires InvShape(s) && InvSlots(s) && InvOwner(s) && InvCounts(s) && o in s.ids
    ensures AtClear(s, o)
  {
    var i := s.ids[o];
    assert SlotOne(i, s);
    assert OwnerOne(i, ChunkOf(i, s.chunkSize), s);
    CountPositive(s, i);
  }

  lemma ClearServices(s: State, t: Tid, o: Obj)
    requires InvServices(s) && AtClear(s, o) && CanClear(s, t, o)
    ensures InvServices(DoClear(s, t, o))
  {
    var n := DoClear(s, t, o);
    forall w | w in n.services ensures ServiceOne(w, n.services[w], n.place) {
      assert ServiceOne(w, s.services[w], s.place);
      ServiceElsewhere(w, s.services[w], s.place, s.ids[o], Clearing(t));
    }
  }

  lemma ClearThreads(s: State, t: Tid, o: Obj)
    requires InvTaken(s) && InvLocks(s) && InvClearing(s) && AtClear(s, o) && CanClear(s, t, o)
    ensures var n := DoClear(s, t, o); InvTaken(n) && InvLocks(n) && InvClearing(n)
  {
    var n := DoClear(s, t, o);
    forall u | u in n.taken ensures TakenOne(u, n) { assert TakenOne(u, s); }
  }

  lemma ClearSlots(s: State, t: Tid, o: Obj)
    requires InvShape(s) && InvSlots(s) && InvIssued(s) && AtClear(s, o) && CanClear(s, t, o)
    ensures var n := DoClear(s, t, o); InvShape(n) && InvSlots(n) && InvIssued(n)
  {
    var n := DoClear(s, t, o);
    forall i | 0 <= i < |n.slots| ensures SlotOne(i, n) { assert SlotOne(i, s); }
  }

  lemma ClearOwner(s: State, t: Tid, o: Obj)
    requires CanClear(s, t, o) && AtClear(s, o) && InvShape(s) && InvOwner(s) && InvSlots(s)
             && InvShape(DoClear(s, t, o))
    ensures InvOwner(DoClear(s, t, o))
  {
    var n := DoClear(s, t, o);
    forall i | 0 <= i < |n.place| ensures OwnerOne(i, ChunkOf(i, n.chunkSize), n) {
      assert SlotOne(i, s) && OwnerOne(i, ChunkOf(i, s.chunkSize), s);
      ClearOwnerAt(s, t, o, i, ChunkOf(i, s.chunkSize));
    }
  }

  lemma ClearOwnerAt(s: State, t: Tid, o: Obj, i: nat, c: nat)
    requires AtClear(s, o) && CanClear(s, t, o) && i < |s.place| && |s.slots| == |s.place| && |s.chunkSvc| == |s.owner|
    requires SlotOne(i, s) && OwnerOne(i, c, s) && (i == s.ids[o] ==> c == ChunkOf(s.ids[o], s.chunkSize))
    ensures OwnerOne(i, c, DoClear(s, t, o))
  {
  }

  lemma ClearStep(s: State, t: Tid, o: Obj)
    requires Inv(s) && CanClear(s, t, o)
    ensures Inv(DoClear(s, t, o))
  {
    RegisteredAt(s, o);
    ClearServices(s, t, o);
    ClearThreads(s, t, o);
    ClearSlots(s, t, o);
    ClearOwner(s, t, o);
    CountsMove(s, DoClear(s, t, o), s.ids[o], ChunkOf(s.ids[o], s.chunkSize));
  }

  /** The slot comes back to the free stack of the service that owns its chunk. */
  lemma GiveBackServices(s: State, t: Tid)
    requires InvServices(s) && InvClearing(s) && CanGiveBack(s, t)
    ensures InvServices(DoGiveBack(s, t))
  {
    var n := DoGiveBack(s, t);
    var p := s.clearing[t];
    forall w | w in n.services ensures ServiceOne(w, n.services[w], n.place) {
      assert ServiceOne(w, s.services[w], s.place);
      if w == p.svc { ServiceCaches(w, s.services[w], s.place, p.index); }
      else { ServiceElsewhere(w, s.services[w], s.place, p.index, Cached(p.svc)); }
    }
  }

  lemma GiveBackThreads(s: State, t: Tid)
    requires InvTaken(s) && InvLocks(s) && InvClearing(s) && CanGiveBack(s, t)
    ensures var n := DoGiveBack(s, t); InvTaken(n) && InvLocks(n) && InvClearing(n)
  {
    var n := DoGiveBack(s, t);
    forall u | u in n.taken ensures TakenOne(u, n) { assert TakenOne(u, s); }
  }

  lemma GiveBackSlots(s: State, t: Tid)
    requires InvShape(s) && InvSlots(s) && InvIssued(s) && InvClearing(s) && CanGiveBack(s, t)
    ensures var n := DoGiveBack(s, t); InvShape(n) && InvSlots(n) && InvIssued(n)
  {
    var n := DoGiveBack(s, t);
    forall i | 0 <= i < |n.slots| ensures SlotOne(i, n) { assert SlotOne(i, s); }
  }

  lemma GiveBackOwner(s: State, t: Tid)
    requires CanGiveBack(s, t) && InvShape(s) && InvOwner(s) && InvSlots(s) && InvClearing(s)
             && InvShape(DoGiveBack(s, t))
    ensures InvOwner(DoGiveBack(s, t))
  {
    var n := DoGiveBack(s, t);
    forall i | 0 <= i < |n.place| ensures OwnerOne(i, ChunkOf(i, n.chunkSize), n) {
      assert SlotOne(i, s) && OwnerOne(i, ChunkOf(i, s.chunkSize), s);
      GiveBackOwnerAt(s, t, i, ChunkOf(i, s.chunkSize));
    }
  }

  lemma GiveBackOwnerAt(s: State, t: Tid, i: nat, c: nat)
    requires InvClearing(s) && CanGiveBack(s, t) && i < |s.place| && |s.slots| == |s.place| && |s.chunkSvc| == |s.owner|
    requires SlotOne(i, s) && OwnerOne(i, c, s)
    ensures OwnerOne(i, c, DoGiveBack(s, t))
  {
  }

  lemma GiveBackStep(s: State, t: Tid)
    requires Inv(s) && CanGiveBack(s, t)
    ensures Inv(DoGiveBack(s, t))
  {
    GiveBackServices(s, t);
    GiveBackThreads(s, t);
    GiveBackSlots(s, t);
    GiveBackOwner(s, t);
    GiveBackCounts(s, t);
  }

  lemma GiveBackCounts(s: State, t: Tid)
    requires InvShape(s) && InvCounts(s) && CanGiveBack(s, t) && InvShape(DoGiveBack(s, t))
    ensures InvCounts(DoGiveBack(s, t))
  {
  }

  lemma DisableSlots(s: State, o: Obj)
    requires InvShape(s) && InvSlots(s) && InvIssued(s) && InvOwner(s) && o in s.ids && s.ids[o] < |s.slots|
    ensures var n := Apply(s, Disable(o)); InvShape(n) && InvSlots(n) && InvIssued(n) && InvOwner(n)
  {
    var n := Apply(s, Disable(o));
    forall i | 0 <= i < |n.slots| ensures SlotOne(i, n) { assert SlotOne(i, s); }
    forall i | 0 <= i < |n.place| ensures OwnerOne(i, ChunkOf(i, n.chunkSize), n) {
      assert OwnerOne(i, ChunkOf(i, s.chunkSize), s);
    }
  }

  lemma DisableStep(s: State, o: Obj)
    requires Inv(s) && o in s.ids && s.ids[o] < |s.slots|
    ensures Inv(Apply(s, Disable(o)))
  {
    var n := Apply(s, Disable(o));
    DisableSlots(s, o);
    RegisteredAt(s, o);
    CountsMove(s, n, s.ids[o], ChunkOf(s.ids[o], s.chunkSize));
    assert InvTaken(n) by {
      forall u | u in n.taken ensures TakenOne(u, n) { assert TakenOne(u, s); }
    }
  }

  // ---- Runs

  lemma InitialInv(s: State)
    requires Initial(s)
    ensures Inv(s)
  {
  }

  lemma StepKeepsInv(s: State, a: Step)
    requires Inv(s) && Enabled(s, a)
    ensures Inv(Apply(s, a))
  {
    match a
    case Take(t, v, o) => TakeStep(s, t, v, o);
    case Finish(t, ok) => FinishStep(s, t, ok);
    case Clear(t, o) => ClearStep(s, t, o);
    case GiveBack(t) => GiveBackStep(s, t);
    case Disable(o) => DisableStep(s, o);
  }

  lemma {:induction false} RunKeepsInv(s: State, run: seq<Step>)
    requires Inv(s) && Legal(s, run)
    ensures Inv(After(s, run))
    decreases |run|
  {
    if run == [] {
    } else {
      StepKeepsInv(s, run[0]);
      RunKeepsInv(Apply(s, run[0]), run[1..]);
    }
  }

  // ---- What every run guarantees

  /** Every slot is in exactly one place, and the fields that put it there agree. */
  lemma EachSlotInOnePlace(s: State, run: seq<Step>, i: nat, v: Svc)
    requires Initial(s) && Legal(s, run) && i < |After(s, run).slots| && v in After(s, run).services
    ensures var n := After(s, run);
            && i < |n.place|
            && (n.slots[i].obj.Some? <==> n.place[i].Registered?)
            && (i in n.services[v].cache <==> n.place[i] == Cached(v))
            && (n.services[v].crt <= i < n.services[v].end <==> n.place[i] == Fresh(v))
            && (forall t :: t in n.taken && n.taken[t].index == i <==> n.place[i] == Taken(t))
            && (forall t :: t in n.clearing && n.clearing[t].index == i <==> n.place[i] == Clearing(t))
            && Distinct(n.services[v].cache)
  {
    InitialInv(s);
    RunKeepsInv(s, run);
    var n := After(s, run);
    assert SlotOne(i, n) && ServiceOne(v, n.services[v], n.place);
    forall t | t in n.taken ensures TakenOne(t, n) {}
  }

  /** No id is ever returned twice, and the chunk a registration lands in belongs to its service
      (the svcidx assertion of registerObject). */
  lemma RegistrationReturnsNewId(s: State, run: seq<Step>, t: Tid)
    requires Initial(s) && Legal(s, run) && t in After(s, run).taken
    ensures CanFinish(After(s, run), t)
    ensures var n := After(s, run); var p := n.taken[t]; var m := DoFinish(n, t, true);
            && Id(p.index, n.slots[p.index].unique) !in n.issued
            && m.issued == n.issued[Id(p.index, n.slots[p.index].unique) := p.obj]
            && m.chunkSvc[ChunkOf(p.index, n.chunkSize)] == Some(p.svc)
  {
    InitialInv(s);
    RunKeepsInv(s, run);
    var n := After(s, run);
    TakenAt(n, t);
    FreshId(n, t);
    FinishNames(n, t);
  }

  lemma FinishNames(s: State, t: Tid)
    requires InvShape(s) && AtFinish(s, t)
    ensures DoFinish(s, t, true).chunkSvc[ChunkOf(s.taken[t].index, s.chunkSize)] == Some(s.taken[t].svc)
  {
  }

  /** An object with an id can always be unregistered: its chunk names its service and counts it. */
  lemma UnregisterNeverBlocked(s: State, run: seq<Step>, t: Tid, o: Obj)
    requires Initial(s) && Legal(s, run)
    requires var n := After(s, run); o in n.ids && t !in n.taken && t !in n.clearing
    ensures CanClear(After(s, run), t, o)
  {
    InitialInv(s);
    RunKeepsInv(s, run);
    RegisteredAt(After(s, run), o);
  }
}
