/**
 Walking the objects of a service: chunk by chunk along the service's chain, in each chunk slot by slot until as
 many objects were visited as the chunk counts.
 */
module ServiceWalks {
  import opened Common
  import opened Chunks
  import opened ObjectIds
  import opened ObjectIdsRuns

  // ---- Walking a chunk

  predicate Visitable(x: Slot) {
    x.obj.Some? && x.visible
  }

  /** The positions, from `at` on, of the slots a walk must visit. */
  function VisitableFrom(q: seq<Slot>, at: nat): seq<nat>
    requires at <= |q|
    decreases |q| - at
  {
    if at == |q| then [] else (if Visitable(q[at]) then [at] else []) + VisitableFrom(q, at + 1)
  }

  lemma {:induction false} FewerVisitable(q: seq<Slot>, at: nat)
    requires at <= |q|
    ensures |VisitableFrom(q, at)| <= Occupied(q[at..])
    decreases |q| - at
  {
    if at < |q| {
      assert q[at..][1..] == q[at + 1..];
      FewerVisitable(q, at + 1);
    }
  }

  lemma {:induction false} OccupiedSplit(q: seq<Slot>, at: nat)
    requires at < |q|
    ensures Occupied(q[at..]) == (if q[at].obj.Some? then 1 else 0) + Occupied(q[at + 1..])
  {
    assert q[at..][1..] == q[at + 1..];
  }

  /** In every run the count of every chunk is that of the objects in its slots: what a walk relies on. */
  lemma ChunkCountsItsObjects(s: State, run: seq<Step>, c: nat)
    requires Initial(s) && Legal(s, run) && c < |After(s, run).objCnt|
    ensures var n := After(s, run); n.objCnt[c] == Occupied(ChunkAt(n.slots, c * n.chunkSize, n.chunkSize))
  {
    InitialInv(s);
    RunKeepsInv(s, run);
  }

  lemma VisitedMore(visited: seq<nat>, q: seq<Slot>, i: nat)
    requires i < |q|
    ensures visited + VisitableFrom(q, i) ==
            (if Visitable(q[i]) then visited + [i] else visited) + VisitableFrom(q, i + 1)
  {
    Regroup(visited, [i], VisitableFrom(q, i + 1));
    assert [] + VisitableFrom(q, i + 1) == VisitableFrom(q, i + 1);
  }

  /** The inner loop of doForEachServiceObject: it stops as soon as it has visited as many objects as
      the chunk counts, and still visits every visitable one, in order. */
  method WalkChunk(q: seq<Slot>, objCnt: nat) returns (visited: seq<nat>)
    requires objCnt == Occupied(q)
    ensures visited == VisitableFrom(q, 0)
  {
    visited := [];
    assert q[0..] == q;
    var i, cnt := 0, 0;
    while i < |q| && cnt < objCnt
      invariant 0 <= i <= |q|
      invariant cnt == |visited|
      invariant visited + VisitableFrom(q, i) == VisitableFrom(q, 0)
      invariant cnt + Occupied(q[i..]) <= objCnt
    {
      OccupiedSplit(q, i);
      VisitedMore(visited, q, i);
      if q[i].obj.Some? && q[i].visible {
        visited := visited + [i];
        cnt := cnt + 1;
      }
      i := i + 1;
    }
    FewerVisitable(q, i);
  }

  // ---- The chain of a service's chunks

  /** The chunks a service owns, in the order they were allocated */
  function ChunksOf(owner: seq<Svc>, v: Svc): seq<nat> {
    if owner == [] then []
    else
      var n := |owner| - 1;
      ChunksOf(owner[..n], v) + (if owner[n] == v then [n] else [])
  }

  predicate Increasing(s: seq<nat>) {
    forall i, j :: 0 <= i < j < |s| ==> s[i] < s[j]
  }

  lemma {:induction false} ChunksOfAre(owner: seq<Svc>, v: Svc, c: nat)
    ensures c in ChunksOf(owner, v) <==> c < |owner| && owner[c] == v
    decreases |owner|
  {
    if owner != [] {
      var n := |owner| - 1;
      ChunksOfAre(owner[..n], v, c);
      if c < n { assert owner[..n][c] == owner[c]; }
    }
  }

  lemma {:induction false} ChunksOfIncrease(owner: seq<Svc>, v: Svc)
    ensures Increasing(ChunksOf(owner, v))
    ensures forall i :: 0 <= i < |ChunksOf(owner, v)| ==> ChunksOf(owner, v)[i] < |owner|
    decreases |owner|
  {
    if owner != [] { ChunksOfIncrease(owner[..|owner| - 1], v); }
  }

  lemma {:induction false} ChunksOfGrow(owner: seq<Svc>, more: seq<Svc>, v: Svc)
    requires owner <= more
    ensures ChunksOf(owner, v) <= ChunksOf(more, v)
    decreases |more|
  {
    if |owner| < |more| {
      var n := |more| - 1;
      assert owner <= more[..n];
      ChunksOfGrow(owner, more[..n], v);
    } else {
      assert owner == more;
    }
  }

  /** Following the links from a service's first chunk one comes through its chunks in order. */
  predicate ChainOne(l: Links, cs: seq<nat>, v: Svc) {
    && (v in l.first <==> cs != []) && (v in l.last <==> cs != [])
    && (cs != [] ==> l.first[v] == cs[0] && l.last[v] == cs[|cs| - 1])
    && forall i :: 0 <= i < |cs| ==> LinkAt(l.next, cs, i)
  }

  predicate LinkAt(next: seq<Option<nat>>, cs: seq<nat>, i: nat) {
    i < |cs| ==> cs[i] < |next| && next[cs[i]] == if i + 1 < |cs| then Some(cs[i + 1]) else None
  }

  ghost predicate InvLinks(l: Links, owner: seq<Svc>) {
    |l.next| == |owner| && forall v: Svc :: ChainOne(l, ChunksOf(owner, v), v)
  }

  lemma OwnLink(l: Links, cs: seq<nat>, v: Svc)
    requires ChainOne(l, cs, v) && Increasing(cs) && forall i :: 0 <= i < |cs| ==> cs[i] < |l.next|
    ensures ChainOne(Linked(l, v), cs + [|l.next|], v)
  {
    var n, more := Linked(l, v), cs + [|l.next|];
    forall i | 0 <= i < |more| ensures LinkAt(n.next, more, i) {
      if i < |cs| { assert LinkAt(l.next, cs, i); }
    }
  }

  lemma OtherLink(l: Links, cs: seq<nat>, v: Svc, w: Svc)
    requires ChainOne(l, cs, w) && v != w && (v in l.last ==> l.last[v] !in cs)
    ensures ChainOne(Linked(l, v), cs, w)
  {
    forall i | 0 <= i < |cs| ensures LinkAt(Linked(l, v).next, cs, i) { assert LinkAt(l.next, cs, i); }
  }

  lemma ChunksOfNext(owner: seq<Svc>, v: Svc, w: Svc)
    ensures ChunksOf(owner + [v], w) == ChunksOf(owner, w) + (if v == w then [|owner|] else [])
  {
    assert (owner + [v])[..|owner|] == owner;
  }

  lemma LinkedChain(l: Links, owner: seq<Svc>, v: Svc, w: Svc)
    requires |l.next| == |owner| && ChainOne(l, ChunksOf(owner, v), v) && ChainOne(l, ChunksOf(owner, w), w)
    ensures ChainOne(Linked(l, v), ChunksOf(owner + [v], w), w)
  {
    ChunksOfNext(owner, v, w);
    ChunksOfIncrease(owner, w);
    if w == v {
      OwnLink(l, ChunksOf(owner, v), v);
    } else {
      if v in l.last { LastIsOwn(l, owner, v, w); }
      OtherLink(l, ChunksOf(owner, w), v, w);
      assert ChunksOf(owner, w) + [] == ChunksOf(owner, w);
    }
  }

  lemma LinkedKeeps(l: Links, owner: seq<Svc>, v: Svc)
    requires InvLinks(l, owner)
    ensures InvLinks(Linked(l, v), owner + [v])
  {
    forall w: Svc ensures ChainOne(Linked(l, v), ChunksOf(owner + [v], w), w) {
      assert ChainOne(l, ChunksOf(owner, w), w) && ChainOne(l, ChunksOf(owner, v), v);
      LinkedChain(l, owner, v, w);
    }
  }

  lemma LastIsOwn(l: Links, owner: seq<Svc>, v: Svc, w: Svc)
    requires ChainOne(l, ChunksOf(owner, v), v) && v != w && v in l.last
    ensures l.last[v] !in ChunksOf(owner, w)
  {
    ChunksOfAre(owner, v, l.last[v]);
    ChunksOfAre(owner, w, l.last[v]);
  }

  /** A step leaves the chunks and their chain alone, or adds a chunk to both. */
  lemma StepLinks(s: State, a: Step)
    requires Enabled(s, a) && InvLinks(s.links, s.owner)
    ensures var n := Apply(s, a); InvLinks(n.links, n.owner) && s.owner <= n.owner
  {
    if a.Take? { TakeLinks(s, a.t, a.svc, a.obj); }
  }

  lemma TakeLinks(s: State, t: Tid, v: Svc, o: Obj)
    requires CanTake(s, t, v, o) && InvLinks(s.links, s.owner)
    ensures var n := DoTake(s, t, v, o); InvLinks(n.links, n.owner) && s.owner <= n.owner
  {
    LinkedKeeps(s.links, s.owner, v);
    var n := DoTake(s, t, v, o);
    assert (n.links == s.links && n.owner == s.owner)
           || (n.links == Linked(s.links, v) && n.owner == s.owner + [v]);
  }

  lemma {:induction false} RunLinks(s: State, run: seq<Step>)
    requires Legal(s, run) && InvLinks(s.links, s.owner)
    ensures var n := After(s, run); InvLinks(n.links, n.owner) && s.owner <= n.owner
    decreases |run|
  {
    if run != [] {
      StepLinks(s, run[0]);
      RunLinks(Apply(s, run[0]), run[1..]);
    }
  }

  /** In every run the chain of a service goes through exactly its chunks, each once. */
  lemma ChainIsChunks(s: State, run: seq<Step>, v: Svc)
    requires Initial(s) && Legal(s, run)
    ensures var n := After(s, run); ChainOne(n.links, ChunksOf(n.owner, v), v) && InvLinks(n.links, n.owner)
    ensures Increasing(ChunksOf(After(s, run).owner, v))
    ensures forall c: nat :: c in ChunksOf(After(s, run).owner, v) <==>
              c < |After(s, run).owner| && After(s, run).owner[c] == v
  {
    RunLinks(s, run);
    var owner := After(s, run).owner;
    ChunksOfIncrease(owner, v);
    forall c: nat ensures c in ChunksOf(owner, v) <==> c < |owner| && owner[c] == v { ChunksOfAre(owner, v, c); }
  }

  // ---- The whole walk

  lemma {:induction false} VisitableAre(q: seq<Slot>, at: nat, j: nat)
    requires at <= |q|
    ensures j in VisitableFrom(q, at) <==> at <= j < |q| && Visitable(q[j])
    decreases |q| - at
  {
    if at < |q| {
      VisitableAre(q, at + 1, j);
      InJoin(if Visitable(q[at]) then [at] else [], VisitableFrom(q, at + 1), j);
    }
  }

  lemma {:induction false} VisitableIncrease(q: seq<Slot>, at: nat)
    requires at <= |q|
    ensures Increasing(VisitableFrom(q, at))
    decreases |q| - at
  {
    if at < |q| {
      VisitableIncrease(q, at + 1);
      var rest := VisitableFrom(q, at + 1);
      forall j | 0 <= j < |rest| ensures at < rest[j] {
        assert rest[j] in rest;
        VisitableAre(q, at + 1, rest[j]);
      }
    }
  }

  function Shifted(s: seq<nat>, d: nat): (r: seq<nat>)
    ensures |r| == |s| && forall i :: 0 <= i < |s| ==> r[i] == s[i] + d
  {
    seq(|s|, i requires 0 <= i < |s| => s[i] + d)
  }

  /** The slots, counted from the first slot of all, that a walk visits in chunk `c` */
  function InChunk(s: State, c: nat): seq<nat> {
    Shifted(VisitableFrom(ChunkAt(s.slots, c * s.chunkSize, s.chunkSize), 0), c * s.chunkSize)
  }

  lemma ShiftedAre(v: seq<nat>, d: nat, i: nat)
    ensures i in Shifted(v, d) <==> i >= d && i - d in v
    ensures Increasing(v) ==> Increasing(Shifted(v, d))
  {
    var r := Shifted(v, d);
    if i in r { var j :| 0 <= j < |r| && r[j] == i; assert v[j] == i - d; }
    if i >= d && i - d in v { var j :| 0 <= j < |v| && v[j] == i - d; assert r[j] == i; }
  }

  lemma InRange(slots: seq<Slot>, at: nat, k: nat, i: nat)
    requires at + k <= |slots|
    ensures var r := Shifted(VisitableFrom(ChunkAt(slots, at, k), 0), at);
            Increasing(r) && (i in r <==> at <= i < at + k && Visitable(slots[i]))
  {
    var q := ChunkAt(slots, at, k);
    VisitableIncrease(q, 0);
    ShiftedAre(VisitableFrom(q, 0), at, i);
    if i >= at { VisitableAre(q, 0, i - at); }
  }

  /** They are the visitable slots of the chunk, in order. */
  lemma InChunkIs(s: State, c: nat, i: nat)
    requires 0 < s.chunkSize && c * s.chunkSize + s.chunkSize <= |s.slots|
    ensures Increasing(InChunk(s, c))
    ensures i in InChunk(s, c) <==> i < |s.slots| && ChunkOf(i, s.chunkSize) == c && Visitable(s.slots[i])
  {
    var at, k := c * s.chunkSize, s.chunkSize;
    InRange(s.slots, at, k, i);
    if at <= i < at + k { ChunkIs(i, c, k); } else { ChunkBounds(i, k); }
  }

  /** What a walk along the chunks `cs` visits */
  function Along(s: State, cs: seq<nat>): seq<nat> {
    if cs == [] then [] else Along(s, cs[..|cs| - 1]) + InChunk(s, cs[|cs| - 1])
  }

  predicate ChunksFit(s: State, cs: seq<nat>) {
    0 < s.chunkSize && forall i :: 0 <= i < |cs| ==> cs[i] * s.chunkSize + s.chunkSize <= |s.slots|
  }

  lemma {:induction false} AlongAre(s: State, cs: seq<nat>, i: nat)
    requires ChunksFit(s, cs)
    ensures i in Along(s, cs) <==> i < |s.slots| && ChunkOf(i, s.chunkSize) in cs && Visitable(s.slots[i])
    decreases |cs|
  {
    if cs != [] {
      var n := |cs| - 1;
      AlongAre(s, cs[..n], i);
      InChunkIs(s, cs[n], i);
      assert cs == cs[..n] + [cs[n]];
    }
  }

  lemma {:induction false} AlongIncrease(s: State, cs: seq<nat>)
    requires ChunksFit(s, cs) && Increasing(cs)
    ensures Increasing(Along(s, cs))
    decreases |cs|
  {
    if cs != [] {
      var n := |cs| - 1;
      AlongIncrease(s, cs[..n]);
      InChunkIs(s, cs[n], 0);
      var a, b := Along(s, cs[..n]), InChunk(s, cs[n]);
      forall i, j | 0 <= i < |a| && 0 <= j < |b| ensures a[i] < b[j] {
        assert a[i] in a && b[j] in b;
        AlongAre(s, cs[..n], a[i]);
        InChunkIs(s, cs[n], b[j]);
        EarlierChunk(a[i], b[j], s.chunkSize);
      }
    }
  }

  lemma EarlierChunk(i: nat, j: nat, k: nat)
    requires 0 < k && ChunkOf(i, k) < ChunkOf(j, k)
    ensures i < j
  {
    ChunkBounds(i, k);
    ChunkBounds(j, k);
    ChunkFits(ChunkOf(i, k), ChunkOf(j, k), k);
  }

  lemma OwnedChunksFit(s: State, v: Svc)
    requires InvShape(s)
    ensures ChunksFit(s, ChunksOf(s.owner, v))
  {
    var cs := ChunksOf(s.owner, v);
    ChunksOfIncrease(s.owner, v);
    forall i | 0 <= i < |cs| ensures cs[i] * s.chunkSize + s.chunkSize <= |s.slots| {
      ChunkFits(cs[i], |s.owner|, s.chunkSize);
    }
  }

  /** What a walk of the service relies on in a state */
  ghost predicate Walkable(s: State, cs: seq<nat>, v: Svc) {
    && ChainOne(s.links, cs, v) && ChunksFit(s, cs) && Increasing(cs)
    && forall i :: 0 <= i < |cs| ==> CountedAt(s, cs[i])
  }

  predicate CountedAt(s: State, c: nat) {
    c < |s.objCnt| && s.objCnt[c] == Occupied(ChunkAt(s.slots, c * s.chunkSize, s.chunkSize))
  }

  lemma InvWalkable(s: State, v: Svc)
    requires InvShape(s) && InvCounts(s) && InvLinks(s.links, s.owner)
    ensures Walkable(s, ChunksOf(s.owner, v), v)
  {
    assert ChainOne(s.links, ChunksOf(s.owner, v), v);
    OwnedChunksFit(s, v);
    ChunksOfIncrease(s.owner, v);
  }

  lemma AlongNext(s: State, cs: seq<nat>, n: nat)
    requires n < |cs|
    ensures Along(s, cs[..n + 1]) == Along(s, cs[..n]) + InChunk(s, cs[n])
  {
    assert cs[..n + 1][..n] == cs[..n];
  }

  lemma ChainNext(s: State, cs: seq<nat>, v: Svc, n: nat)
    requires Walkable(s, cs, v) && n < |cs|
    ensures CountedAt(s, cs[n]) && cs[n] < |s.links.next|
    ensures s.links.next[cs[n]] == if n + 1 < |cs| then Some(cs[n + 1]) else None
  {
    assert LinkAt(s.links.next, cs, n);
  }

  method WalkOne(s: State, c: nat) returns (visited: seq<nat>)
    requires CountedAt(s, c)
    ensures visited == InChunk(s, c)
  {
    var at := WalkChunk(ChunkAt(s.slots, c * s.chunkSize, s.chunkSize), s.objCnt[c]);
    return Shifted(at, c * s.chunkSize);
  }

  /** doForEachServiceObject: along the chain from the service's first chunk; it ends, and has visited each visible
      object in a chunk of the service exactly once. */
  method WalkChain(s: State, ghost cs: seq<nat>, v: Svc) returns (visited: seq<nat>)
    requires Walkable(s, cs, v)
    ensures visited == Along(s, cs)
  {
    visited := [];
    var crt := if v in s.links.first then Some(s.links.first[v]) else None;
    ghost var n := 0;
    while crt.Some?
      invariant n <= |cs| && visited == Along(s, cs[..n])
      invariant crt == if n < |cs| then Some(cs[n]) else None
      decreases |cs| - n
    {
      ChainNext(s, cs, v, n);
      AlongNext(s, cs, n);
      var more := WalkOne(s, crt.value);
      visited, crt, n := visited + more, s.links.next[crt.value], n + 1;
    }
    assert cs[..n] == cs;
  }

  /** In every run: a walk of a service while nothing else happens visits each visible object in its chunks exactly
      once. */
  lemma WalkVisitsAll(s: State, run: seq<Step>, v: Svc, i: nat)
    requires Initial(s) && Legal(s, run)
    ensures var n := After(s, run); var cs := ChunksOf(n.owner, v);
            && Walkable(n, cs, v) && Increasing(Along(n, cs))
            && (i in Along(n, cs) <==>
                  0 < n.chunkSize && i < |n.slots| && ChunkOf(i, n.chunkSize) < |n.owner|
                  && n.owner[ChunkOf(i, n.chunkSize)] == v && Visitable(n.slots[i]))
  {
    var n := After(s, run);
    InitialInv(s);
    RunKeepsInv(s, run);
    RunLinks(s, run);
    InvWalkable(n, v);
    AlongIncrease(n, ChunksOf(n.owner, v));
    AlongAre(n, ChunksOf(n.owner, v), i);
    ChunksOfAre(n.owner, v, ChunkOf(i, n.chunkSize));
  }

  // ---- A walk while others go on

  /** Between two chunks of a walk others take steps: `runs[i]` before chunk i is read, in `states[i]`. */
  predicate During(start: State, runs: seq<seq<Step>>, states: seq<State>) {
    |runs| == |states| && forall i :: 0 <= i < |runs| ==> DuringAt(start, runs, states, i)
  }

  predicate DuringAt(start: State, runs: seq<seq<Step>>, states: seq<State>, i: nat) {
    i < |runs| && i < |states| ==>
      var before := if i == 0 then start else states[i - 1];
      Legal(before, runs[i]) && After(before, runs[i]) == states[i]
  }

  /** The chunks a walk goes through: the first one as it was at the start, then each chunk's next one as it was when
      that chunk was read, to the end of the chain. */
  predicate Walked(start: State, states: seq<State>, v: Svc, cs: seq<nat>) {
    && |cs| == |states|
    && (if v in start.links.first then cs != [] && cs[0] == start.links.first[v] else cs == [])
    && forall i :: 0 <= i < |cs| ==> WalkedAt(states, cs, i)
  }

  predicate WalkedAt(states: seq<State>, cs: seq<nat>, i: nat) {
    i < |cs| && i < |states| ==>
      && cs[i] < |states[i].links.next|
      && states[i].links.next[cs[i]] == if i + 1 < |cs| then Some(cs[i + 1]) else None
  }

  lemma {:induction false} DuringLinks(start: State, runs: seq<seq<Step>>, states: seq<State>, i: nat)
    requires During(start, runs, states) && InvLinks(start.links, start.owner) && i < |states|
    ensures InvLinks(states[i].links, states[i].owner) && start.owner <= states[i].owner
    decreases i
  {
    assert DuringAt(start, runs, states, i);
    if i == 0 {
      RunLinks(start, runs[0]);
    } else {
      DuringLinks(start, runs, states, i - 1);
      RunLinks(states[i - 1], runs[i]);
    }
  }

  /** The i-th chunk of the walk is the i-th chunk of the service. */
  lemma {:induction false} WalkedPrefix(start: State, runs: seq<seq<Step>>, states: seq<State>, v: Svc, cs: seq<nat>,
                                        i: nat)
    requires During(start, runs, states) && InvLinks(start.links, start.owner) && Walked(start, states, v, cs)
    requires i < |cs|
    ensures i < |ChunksOf(states[i].owner, v)| && ChunksOf(states[i].owner, v)[i] == cs[i]
    decreases i
  {
    DuringLinks(start, runs, states, i);
    if i == 0 {
      assert ChainOne(start.links, ChunksOf(start.owner, v), v);
      ChunksOfGrow(start.owner, states[0].owner, v);
    } else {
      WalkedPrefix(start, runs, states, v, cs, i - 1);
      DuringLinks(start, runs, states, i - 1);
      NextChunk(states[i - 1], states, v, cs, i - 1);
      assert DuringAt(start, runs, states, i);
      RunLinks(states[i - 1], runs[i]);
      ChunksOfGrow(states[i - 1].owner, states[i].owner, v);
    }
  }

  lemma NextChunk(s: State, states: seq<State>, v: Svc, cs: seq<nat>, i: nat)
    requires InvLinks(s.links, s.owner) && i < |cs| == |states| && states[i] == s && WalkedAt(states, cs, i)
    requires i < |ChunksOf(s.owner, v)| && ChunksOf(s.owner, v)[i] == cs[i]
    ensures if i + 1 < |cs| then i + 1 < |ChunksOf(s.owner, v)| && ChunksOf(s.owner, v)[i + 1] == cs[i + 1]
            else |ChunksOf(s.owner, v)| == i + 1
  {
    assert ChainOne(s.links, ChunksOf(s.owner, v), v);
    assert LinkAt(s.links.next, ChunksOf(s.owner, v), i);
  }

  /** Whatever others do meanwhile, a walk goes through exactly the chunks the service has when the walk ends, each
      once, so through all it had at the start. */
  lemma WalkMissesNone(s: State, run: seq<Step>, runs: seq<seq<Step>>, states: seq<State>, v: Svc, cs: seq<nat>)
    requires Initial(s) && Legal(s, run) && During(After(s, run), runs, states) && Walked(After(s, run), states, v, cs)
    ensures cs != [] ==> cs == ChunksOf(states[|cs| - 1].owner, v)
    ensures Increasing(cs) && ChunksOf(After(s, run).owner, v) <= cs
  {
    var start := After(s, run);
    RunLinks(s, run);
    assert ChainOne(start.links, ChunksOf(start.owner, v), v);
    if cs != [] {
      var n := |cs| - 1;
      var all := ChunksOf(states[n].owner, v);
      DuringLinks(start, runs, states, n);
      ChunksOfIncrease(states[n].owner, v);
      ChunksOfGrow(start.owner, states[n].owner, v);
      WalkedPrefix(start, runs, states, v, cs, n);
      NextChunk(states[n], states, v, cs, n);
      forall i | 0 <= i < |cs| ensures cs[i] == all[i] {
        WalkedPrefix(start, runs, states, v, cs, i);
        DuringGrows(start, runs, states, i, n);
        ChunksOfGrow(states[i].owner, states[n].owner, v);
      }
      assert cs == all;
    }
  }

  lemma {:induction false} DuringGrows(start: State, runs: seq<seq<Step>>, states: seq<State>, i: nat, n: nat)
    requires During(start, runs, states) && InvLinks(start.links, start.owner) && i <= n < |states|
    ensures states[i].owner <= states[n].owner
    decreases n
  {
    if i < n {
      DuringGrows(start, runs, states, i, n - 1);
      DuringLinks(start, runs, states, n - 1);
      assert DuringAt(start, runs, states, n);
      RunLinks(states[n - 1], runs[n]);
    }
  }

  lemma {:induction false} DuringInv(start: State, runs: seq<seq<Step>>, states: seq<State>, i: nat)
    requires During(start, runs, states) && Inv(start) && i < |states|
    ensures Inv(states[i]) && states[i].chunkSize == start.chunkSize
    decreases i
  {
    assert DuringAt(start, runs, states, i);
    if i == 0 {
      RunKeepsInv(start, runs[0]);
      SameChunkSize(start, runs[0]);
    } else {
      DuringInv(start, runs, states, i - 1);
      RunKeepsInv(states[i - 1], runs[i]);
      SameChunkSize(states[i - 1], runs[i]);
    }
  }

  lemma {:induction false} SameChunkSize(s: State, run: seq<Step>)
    requires Legal(s, run)
    ensures After(s, run).chunkSize == s.chunkSize
    decreases |run|
  {
    if run != [] { SameChunkSize(Apply(s, run[0]), run[1..]); }
  }

  /** The slot `i` is in a chunk that the service `v` has in state `s`. */
  predicate SlotOf(s: State, v: Svc, i: nat) {
    0 < s.chunkSize && ChunkOf(i, s.chunkSize) < |s.owner| && s.owner[ChunkOf(i, s.chunkSize)] == v
  }

  lemma VisitedIn(s: State, v: Svc, c: nat, i: nat)
    requires InvShape(s) && c < |s.owner|
    ensures i in InChunk(s, c) <==> i < |s.slots| && ChunkOf(i, s.chunkSize) == c && Visitable(s.slots[i])
  {
    ChunkFits(c, |s.owner|, s.chunkSize);
    InChunkIs(s, c, i);
  }

  /** So an object that is registered and visible throughout the walk is visited exactly once. */
  lemma VisitedOnce(s: State, run: seq<Step>, runs: seq<seq<Step>>, states: seq<State>, v: Svc, cs: seq<nat>, i: nat)
      returns (j: nat)
    requires Initial(s) && Legal(s, run) && During(After(s, run), runs, states) && Walked(After(s, run), states, v, cs)
    requires SlotOf(After(s, run), v, i)
    requires forall m :: 0 <= m < |states| ==> i < |states[m].slots| && Visitable(states[m].slots[i])
    ensures j < |cs| && i in InChunk(states[j], cs[j])
    ensures forall m :: 0 <= m < |cs| && m != j ==> i !in InChunk(states[m], cs[m])
  {
    var start := After(s, run);
    var c := ChunkOf(i, start.chunkSize);
    WalkMissesNone(s, run, runs, states, v, cs);
    ChunksOfAre(start.owner, v, c);
    assert c in cs;
    j :| 0 <= j < |cs| && cs[j] == c;
    forall m | 0 <= m < |cs| ensures i in InChunk(states[m], cs[m]) <==> cs[m] == c {
      ReadInRun(s, run, runs, states, v, cs, m);
      VisitedIn(states[m], v, cs[m], i);
    }
  }

  lemma ReadInRun(s: State, run: seq<Step>, runs: seq<seq<Step>>, states: seq<State>, v: Svc, cs: seq<nat>, m: nat)
    requires Initial(s) && Legal(s, run) && During(After(s, run), runs, states) && Walked(After(s, run), states, v, cs)
    requires m < |cs|
    ensures InvShape(states[m]) && states[m].chunkSize == After(s, run).chunkSize && cs[m] < |states[m].owner|
  {
    InitialInv(s);
    RunKeepsInv(s, run);
    RunLinks(s, run);
    DuringInv(After(s, run), runs, states, m);
    WalkedPrefix(After(s, run), runs, states, v, cs, m);
    ChunksOfIncrease(states[m].owner, v);
  }
}
