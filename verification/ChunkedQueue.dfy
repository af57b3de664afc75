/** The FIFO queue kept in a chain of nodes of `n` slots, with a cache of nodes for reuse. */
module ChunkedQueue {
  import opened Common
  import opened ChunkedLists

  /** The queue's fields, and the nodes it has allocated */
  datatype Rep<T> = Rep(n: nat, sz: nat, popsz: nat, back: Option<Place>, front: Option<Place>,
                        cache: Option<nat>, nodes: seq<Node<T>>)

  /** What pushing and popping need to find their way */
  predicate Ready<T>(r: Rep<T>) {
    && r.n > 0 && (r.cache.Some? ==> r.cache.value < |r.nodes|)
    && (r.back.Some? ==> r.back.value.node < |r.nodes|)
    && (r.front.Some? ==> r.front.value.node < |r.nodes|)
    && (Offset(r.sz + r.popsz, r.n) != 0 ==> r.back.Some?)
    && (r.sz > 0 ==> r.front.Some?)
  }

  /** pushNode */
  function PushNode<T>(r: Rep<T>): Rep<T>
    requires Ready(r)
  {
    var t := TakeNode(r.cache, r.nodes);
    var p := Place(t.node, 0);
    match r.back
    case Some(b) => r.(cache := t.cache, nodes := Relink(t.nodes, b.node, Some(t.node)), back := Some(p))
    case None => r.(cache := t.cache, nodes := t.nodes, back := Some(p), front := Some(p))
  }

  /** Where the next element goes */
  function Advance<T>(r: Rep<T>): (a: Rep<T>)
    requires Ready(r)
    ensures a.back.Some? && a.back.value.node < |a.nodes|
  {
    if Offset(r.sz + r.popsz, r.n) != 0 then r.(back := Some(Place(r.back.value.node, r.back.value.slot + 1)))
    else PushNode(r)
  }

  function Push<T>(r: Rep<T>, x: T): Rep<T>
    requires Ready(r)
  {
    var a := Advance(r);
    a.(sz := a.sz + 1, nodes := Construct(a.nodes, a.back.value, x))
  }

  /** popNode: the node goes to the cache. */
  function PopNode<T>(r: Rep<T>): Rep<T>
    requires r.front.Some? && r.front.value.node < |r.nodes|
  {
    var a := r.front.value.node;
    var q := r.(nodes := Relink(r.nodes, a, r.cache), cache := Some(a));
    match r.nodes[a].link
    case Some(b) => q.(front := Some(Place(b, 0)))
    case None => q.(front := None, back := None)
  }

  function Pop<T>(r: Rep<T>): Rep<T>
    requires Ready(r) && r.sz > 0
  {
    var d := r.(sz := r.sz - 1, nodes := Destroy(r.nodes, r.front.value));
    if Offset(r.popsz + 1, r.n) != 0
    then d.(popsz := r.popsz + 1, front := Some(Place(r.front.value.node, r.front.value.slot + 1)))
    else PopNode(d).(popsz := 0)
  }

  // ---- The invariant

  function End<T>(r: Rep<T>): nat {
    if r.back.Some? then r.back.value.slot + 1 else 0
  }

  /** The ends of the live chain are where the queue looks for them. */
  predicate Ends<T>(r: Rep<T>, live: seq<nat>) {
    && (live == [] ==> r.front == None && r.back == None)
    && (live != [] ==>
          r.front == Some(Place(live[0], r.popsz)) && r.back.Some? && r.back.value.node == live[|live| - 1])
  }

  function Low(i: int, lo: nat): nat {
    if i == 0 then lo else 0
  }

  /** The nodes of the live chain hold the segments, and nothing else. */
  ghost predicate Holds<T>(nodes: seq<Node<T>>, live: seq<nat>, segs: seq<seq<T>>, lo: nat) {
    && |segs| == |live|
    && forall i :: 0 <= i < |live| ==> live[i] < |nodes| && Slots(nodes[live[i]].slots, Low(i, lo), segs[i])
  }

  ghost predicate Good<T>(r: Rep<T>, live: seq<nat>, segs: seq<seq<T>>, spare: seq<nat>) {
    && r.n >= 2 && r.popsz < r.n && r.sz == |Flat(segs)|
    && Cut(r.nodes, r.cache, live, spare) && Chain(r.nodes, live)
    && Ends(r, live) && Holds(r.nodes, live, segs, r.popsz)
    && Filled(segs, r.popsz, r.n, End(r))
  }

  lemma GoodReady<T>(r: Rep<T>, live: seq<nat>, segs: seq<seq<T>>, spare: seq<nat>)
    requires Good(r, live, segs, spare)
    ensures Ready(r) && (Offset(r.sz + r.popsz, r.n) == 0 <==> live == [] || End(r) == r.n) && End(r) <= r.n
  {
    CutReady(r.nodes, r.cache, live, spare);
    NewNodeNeeded(segs, r.popsz, r.n, End(r));
    if live != [] { assert live[0] in live && live[|live| - 1] in live; }
  }

  // ---- push

  lemma HoldsExtend<T>(nodes: seq<Node<T>>, live: seq<nat>, segs: seq<seq<T>>, lo: nat, slot: nat, x: T)
    requires Holds(nodes, live, segs, lo) && Distinct(live) && live != []
    requires slot == Low(|live| - 1, lo) + |segs[|live| - 1]|
    ensures var k := |live| - 1;
            Holds(Construct(nodes, Place(live[k], slot), x), live, segs[k := segs[k] + [x]], lo)
  {
    var k := |live| - 1;
    var more := Construct(nodes, Place(live[k], slot), x);
    SlotsExtend(nodes[live[k]].slots, Low(k, lo), segs[k], x);
    forall i | 0 <= i < |live| ensures Slots(more[live[i]].slots, Low(i, lo), segs[k := segs[k] + [x]][i]) {
      if i < k { assert live[i] != live[k]; }
    }
  }

  lemma PushSame<T>(r: Rep<T>, live: seq<nat>, segs: seq<seq<T>>, spare: seq<nat>, x: T)
    requires Good(r, live, segs, spare) && Ready(r) && Offset(r.sz + r.popsz, r.n) != 0
    ensures live != [] && Good(Push(r, x), live, segs[|live| - 1 := segs[|live| - 1] + [x]], spare)
  {
    GoodReady(r, live, segs, spare);
    var k, q := |live| - 1, Push(r, x);
    assert live[k] in live;
    FilledLast(segs, r.popsz, r.n, End(r));
    FilledExtend(segs, r.popsz, r.n, End(r), x);
    FlatExtend(segs, x);
    HoldsExtend(r.nodes, live, segs, r.popsz, q.back.value.slot, x);
    SlotsChanged(r.nodes, q.nodes, r.cache, live, spare, live[k]);
  }

  /** The live chain is linked to the node taken. */
  lemma LinkedBack<T>(nodes: seq<Node<T>>, cache: Option<nat>, live: seq<nat>, spare: seq<nat>, a: nat)
    requires Cut(nodes, cache, live + [a], spare) && Chain(nodes, live) && live != []
    requires a < |nodes| && nodes[a].link == None
    ensures live[|live| - 1] < |nodes|
    ensures var more := Relink(nodes, live[|live| - 1], Some(a));
            Cut(more, cache, live + [a], spare) && Chain(more, live + [a])
  {
    var k, all := |live| - 1, live + [a];
    assert all[k] == live[k] && all[k] in all && all[k + 1] == a && a in all;
    forall i | 0 <= i < |live| ensures all[i] == live[i] && live[i] in all {}
    assert Distinct(live) by {
      forall i, j | 0 <= i < j < |live| ensures live[i] != live[j] { assert all[i] != all[j]; }
    }
    var more := Relink(nodes, live[k], Some(a));
    ChainBack(nodes, more, live, a);
    ChainKeeps(nodes, more, spare);
  }

  lemma NodePushed<T>(r: Rep<T>, live: seq<nat>, segs: seq<seq<T>>, spare: seq<nat>)
    requires Good(r, live, segs, spare) && Ready(r)
    ensures var q := PushNode(r); var a := TakeNode(r.cache, r.nodes).node;
            && a < |q.nodes| && q.back == Some(Place(a, 0)) && Cut(q.nodes, q.cache, live + [a], Rest(spare))
            && Chain(q.nodes, live + [a])
  {
    var t := TakeNode(r.cache, r.nodes);
    TakeCuts(r.nodes, r.cache, live, spare);
    ChainKeeps(r.nodes, t.nodes, live);
    if live != [] { LinkedBack(t.nodes, t.cache, live, Rest(spare), t.node); }
    else { ChainFront(t.nodes, [], t.node); assert [t.node] + [] == [] + [t.node]; }
  }

  lemma NodeEmpty<T>(r: Rep<T>, live: seq<nat>, segs: seq<seq<T>>, spare: seq<nat>)
    requires Good(r, live, segs, spare) && Ready(r)
    ensures var q := PushNode(r); var a := TakeNode(r.cache, r.nodes).node;
            a < |q.nodes| && Holds(q.nodes, live, segs, r.popsz) && Vacant(q.nodes[a].slots) && a !in live
  {
    TakeCuts(r.nodes, r.cache, live, spare);
    var q := PushNode(r);
    forall i | 0 <= i < |live|
      ensures live[i] in live && live[i] < |q.nodes| && q.nodes[live[i]].slots == r.nodes[live[i]].slots
    {
    }
  }

  lemma HoldsGrow<T>(nodes: seq<Node<T>>, live: seq<nat>, segs: seq<seq<T>>, lo: nat, a: nat, x: T)
    requires Holds(nodes, live, segs, lo) && a < |nodes| && a !in live && Vacant(nodes[a].slots)
             && (live == [] ==> lo == 0)
    ensures Holds(Construct(nodes, Place(a, 0), x), live + [a], segs + [[x]], lo)
  {
    var more, all, now := Construct(nodes, Place(a, 0), x), live + [a], segs + [[x]];
    forall i | 0 <= i < |all| ensures all[i] < |more| && Slots(more[all[i]].slots, Low(i, lo), now[i]) {
      if i < |live| { assert live[i] in live && all[i] == live[i] && now[i] == segs[i]; }
    }
  }

  lemma PushNewNodes<T>(r: Rep<T>, live: seq<nat>, segs: seq<seq<T>>, spare: seq<nat>, x: T, a: nat)
    requires Good(r, live, segs, spare) && Ready(r) && a == TakeNode(r.cache, r.nodes).node
    requires Offset(r.sz + r.popsz, r.n) == 0 && (live == [] ==> r.popsz == 0)
    ensures var q := Push(r, x);
            && Cut(q.nodes, q.cache, live + [a], Rest(spare)) && Chain(q.nodes, live + [a])
            && Holds(q.nodes, live + [a], segs + [[x]], r.popsz)
  {
    NodePushed(r, live, segs, spare);
    NodeEmpty(r, live, segs, spare);
    var p, q := PushNode(r), Push(r, x);
    HoldsGrow(p.nodes, live, segs, r.popsz, a, x);
    assert (live + [a])[|live|] == a;
    SlotsChanged(p.nodes, q.nodes, p.cache, live + [a], Rest(spare), a);
  }

  lemma PushNewSizes<T>(r: Rep<T>, live: seq<nat>, segs: seq<seq<T>>, spare: seq<nat>, x: T, a: nat)
    requires Good(r, live, segs, spare) && Ready(r) && a == TakeNode(r.cache, r.nodes).node
    requires Offset(r.sz + r.popsz, r.n) == 0 && (live == [] || End(r) == r.n)
    ensures var q := Push(r, x);
            && q.n == r.n && q.popsz == r.popsz && q.sz == |Flat(segs + [[x]])| && Ends(q, live + [a])
            && Filled(segs + [[x]], r.popsz, r.n, End(q))
  {
    FilledGrow(segs, r.popsz, r.n, End(r), x);
    FlatGrow(segs, x);
  }

  lemma PushNew<T>(r: Rep<T>, live: seq<nat>, segs: seq<seq<T>>, spare: seq<nat>, x: T)
    requires Good(r, live, segs, spare) && Ready(r) && Offset(r.sz + r.popsz, r.n) == 0
    ensures Good(Push(r, x), live + [TakeNode(r.cache, r.nodes).node], segs + [[x]], Rest(spare))
  {
    GoodReady(r, live, segs, spare);
    var a := TakeNode(r.cache, r.nodes).node;
    PushNewNodes(r, live, segs, spare, x, a);
    PushNewSizes(r, live, segs, spare, x, a);
  }

  // ---- pop

  lemma SlotsLeft(n: nat, popsz: nat)
    requires 0 < n && popsz < n
    ensures Offset(popsz + 1, n) == 0 <==> popsz + 1 == n
  {
    Multiples(n, 0, popsz + 1);
    assert n * 0 + (popsz + 1) == popsz + 1;
  }

  /** The element at the front is the oldest one, and it is constructed. */
  lemma FrontIsOldest<T>(r: Rep<T>, live: seq<nat>, segs: seq<seq<T>>, spare: seq<nat>)
    requires Good(r, live, segs, spare) && r.sz > 0
    ensures r.front.Some? && r.front.value.node < |r.nodes| && r.front.value.slot in r.nodes[r.front.value.node].slots
    ensures r.nodes[r.front.value.node].slots[r.front.value.slot] == Flat(segs)[0]
    ensures segs != [] && segs[0] != []
  {
    FirstSegment(segs, r.popsz, r.n, End(r));
    FlatBehead(segs);
    assert Slots(r.nodes[live[0]].slots, Low(0, r.popsz), segs[0]);
    SlotsBehead(r.nodes[live[0]].slots, r.popsz, segs[0]);
  }

  lemma HoldsBehead<T>(nodes: seq<Node<T>>, live: seq<nat>, segs: seq<seq<T>>, lo: nat)
    requires Holds(nodes, live, segs, lo) && Distinct(live) && live != [] && segs[0] != []
    ensures var more := Destroy(nodes, Place(live[0], lo));
            && Holds(more, live, segs[0 := segs[0][1..]], lo + 1)
            && Holds(more, live[1..], segs[1..], 0)
            && (|segs[0]| == 1 ==> Vacant(more[live[0]].slots))
  {
    var more := Destroy(nodes, Place(live[0], lo));
    assert Slots(nodes[live[0]].slots, Low(0, lo), segs[0]);
    SlotsBehead(nodes[live[0]].slots, lo, segs[0]);
    forall i | 0 < i < |live| ensures live[i] != live[0] && Slots(more[live[i]].slots, 0, segs[i]) {
      assert Slots(nodes[live[i]].slots, Low(i, lo), segs[i]);
    }
    forall i | 0 <= i < |live[1..]|
      ensures live[1..][i] < |more| && Slots(more[live[1..][i]].slots, Low(i, 0), segs[1..][i])
    {
      assert live[1..][i] == live[i + 1] && segs[1..][i] == segs[i + 1];
    }
  }

  lemma PopSameSizes<T>(r: Rep<T>, live: seq<nat>, segs: seq<seq<T>>, spare: seq<nat>)
    requires Good(r, live, segs, spare) && Ready(r) && r.sz > 0 && r.popsz + 1 < r.n && segs != [] && segs[0] != []
    ensures var q := Pop(r);
            && q.n == r.n && q.popsz == r.popsz + 1 && q.sz == |Flat(segs[0 := segs[0][1..]])| && Ends(q, live)
            && Filled(segs[0 := segs[0][1..]], q.popsz, r.n, End(q))
            && q.nodes == Destroy(r.nodes, Place(live[0], r.popsz)) && q.cache == r.cache
  {
    SlotsLeft(r.n, r.popsz);
    FlatBehead(segs);
    FilledBehead(segs, r.popsz, r.n, End(r));
  }

  lemma PopSame<T>(r: Rep<T>, live: seq<nat>, segs: seq<seq<T>>, spare: seq<nat>)
    requires Good(r, live, segs, spare) && Ready(r) && r.sz > 0 && r.popsz + 1 < r.n
    ensures segs != [] && segs[0] != [] && Good(Pop(r), live, segs[0 := segs[0][1..]], spare)
  {
    FrontIsOldest(r, live, segs, spare);
    PopSameSizes(r, live, segs, spare);
    HoldsBehead(r.nodes, live, segs, r.popsz);
    assert live[0] in live;
    SlotsChanged(r.nodes, Pop(r).nodes, r.cache, live, spare, live[0]);
  }

  lemma PopLastNodes<T>(r: Rep<T>, live: seq<nat>, segs: seq<seq<T>>, spare: seq<nat>)
    requires Good(r, live, segs, spare) && Ready(r) && r.sz > 0 && r.popsz + 1 == r.n
    ensures live != [] && segs != [] && |segs[0]| == 1
    ensures var q := Pop(r);
            && Cut(q.nodes, q.cache, live[1..], [live[0]] + spare) && Chain(q.nodes, live[1..])
            && Holds(q.nodes, live[1..], segs[1..], 0) && Ends(q, live[1..])
            && (live[1..] != [] ==> q.back == r.back)
  {
    FrontIsOldest(r, live, segs, spare);
    SlotsLeft(r.n, r.popsz);
    FilledBehead(segs, r.popsz, r.n, End(r));
    HoldsBehead(r.nodes, live, segs, r.popsz);
    assert live[0] in live;
    var d := Destroy(r.nodes, Place(live[0], r.popsz));
    SlotsChanged(r.nodes, d, r.cache, live, spare, live[0]);
    GiveCuts(d, r.cache, live, spare);
    ChainTail(d, live);
    HoldsRelink(d, live[1..], segs[1..], 0, live[0], r.cache);
  }

  lemma HoldsRelink<T>(nodes: seq<Node<T>>, live: seq<nat>, segs: seq<seq<T>>, lo: nat, a: nat, link: Option<nat>)
    requires Holds(nodes, live, segs, lo) && a < |nodes|
    ensures Holds(Relink(nodes, a, link), live, segs, lo)
  {
    forall i | 0 <= i < |live| ensures Slots(Relink(nodes, a, link)[live[i]].slots, Low(i, lo), segs[i]) {
      assert Slots(nodes[live[i]].slots, Low(i, lo), segs[i]);
    }
  }

  lemma PopLastSizes<T>(r: Rep<T>, live: seq<nat>, segs: seq<seq<T>>, spare: seq<nat>)
    requires Good(r, live, segs, spare) && Ready(r) && r.sz > 0 && r.popsz + 1 == r.n
    requires live != [] && segs != [] && |segs[0]| == 1
    requires Ends(Pop(r), live[1..]) && (live[1..] != [] ==> Pop(r).back == r.back)
    ensures var q := Pop(r);
            q.n == r.n && q.popsz == 0 && q.sz == |Flat(segs[1..])| && Filled(segs[1..], 0, r.n, End(q))
    ensures |live| == 1 ==> r.sz == 1
  {
    SlotsLeft(r.n, r.popsz);
    FilledBehead(segs, r.popsz, r.n, End(r));
    FlatBehead(segs);
    if |live| == 1 { assert segs[1..] == [] && live[1..] == []; }
  }

  lemma PopLast<T>(r: Rep<T>, live: seq<nat>, segs: seq<seq<T>>, spare: seq<nat>)
    requires Good(r, live, segs, spare) && Ready(r) && r.sz > 0 && r.popsz + 1 == r.n
    ensures live != [] && segs != [] && |segs[0]| == 1
    ensures Good(Pop(r), live[1..], segs[1..], [live[0]] + spare)
    ensures |live| == 1 ==> r.sz == 1
  {
    PopLastNodes(r, live, segs, spare);
    PopLastSizes(r, live, segs, spare);
  }

  /** Pushing changes no constructed slot, and allocates only when the cache is empty. */
  lemma Undisturbed<T>(r: Rep<T>, live: seq<nat>, segs: seq<seq<T>>, spare: seq<nat>, x: T)
    requires Good(r, live, segs, spare) && Ready(r)
    ensures var q := Push(r, x);
            && (forall a, k :: 0 <= a < |r.nodes| && k in r.nodes[a].slots ==>
                  a < |q.nodes| && k in q.nodes[a].slots && q.nodes[a].slots[k] == r.nodes[a].slots[k])
            && (|q.nodes| > |r.nodes| ==> spare == [])
  {
    GoodReady(r, live, segs, spare);
    var q := Push(r, x);
    if Offset(r.sz + r.popsz, r.n) != 0 {
      var k := |live| - 1;
      FilledLast(segs, r.popsz, r.n, End(r));
      assert Slots(r.nodes[live[k]].slots, Low(k, r.popsz), segs[k]);
    } else {
      NodeEmpty(r, live, segs, spare);
      TakeCuts(r.nodes, r.cache, live, spare);
    }
  }

  // ---- Every push and every pop

  /** The live chain, what each of its nodes holds, and the cache */
  datatype Layout<T> = Layout(live: seq<nat>, segs: seq<seq<T>>, spare: seq<nat>)

  ghost predicate Laid<T>(r: Rep<T>, g: Layout<T>) {
    Good(r, g.live, g.segs, g.spare)
  }

  function PushLayout<T>(r: Rep<T>, g: Layout<T>, x: T): Layout<T>
    requires Ready(r)
  {
    if Offset(r.sz + r.popsz, r.n) != 0 && g.segs != []
    then g.(segs := g.segs[|g.segs| - 1 := g.segs[|g.segs| - 1] + [x]])
    else Layout(g.live + [TakeNode(r.cache, r.nodes).node], g.segs + [[x]], Rest(g.spare))
  }

  /** Pushing adds at the end of the list the nodes hold, and the live chain only grows at its end. */
  lemma PushKeeps<T>(r: Rep<T>, g: Layout<T>, x: T)
    requires Laid(r, g)
    ensures Ready(r) && Laid(Push(r, x), PushLayout(r, g, x))
    ensures Flat(PushLayout(r, g, x).segs) == Flat(g.segs) + [x] && g.live <= PushLayout(r, g, x).live
  {
    GoodReady(r, g.live, g.segs, g.spare);
    if Offset(r.sz + r.popsz, r.n) != 0 {
      PushSame(r, g.live, g.segs, g.spare, x);
      FlatExtend(g.segs, x);
    } else {
      PushNew(r, g.live, g.segs, g.spare, x);
      FlatGrow(g.segs, x);
    }
  }

  function PopLayout<T>(r: Rep<T>, g: Layout<T>): Layout<T>
    requires g.segs != [] && g.segs[0] != [] && g.live != []
  {
    if r.popsz + 1 < r.n then g.(segs := g.segs[0 := g.segs[0][1..]])
    else Layout(g.live[1..], g.segs[1..], [g.live[0]] + g.spare)
  }

  /** Popping takes the first element off the list; a node that is used up goes to the cache, and when it was
      the last one, as popNode asserts, nothing is left. */
  lemma PopKeeps<T>(r: Rep<T>, g: Layout<T>)
    requires Laid(r, g) && r.sz > 0
    ensures Ready(r) && g.segs != [] && g.segs[0] != [] && g.live != []
    ensures Laid(Pop(r), PopLayout(r, g)) && Flat(PopLayout(r, g).segs) == Flat(g.segs)[1..]
    ensures r.popsz + 1 == r.n && |g.live| == 1 ==> r.sz == 1
  {
    GoodReady(r, g.live, g.segs, g.spare);
    FrontIsOldest(r, g.live, g.segs, g.spare);
    FlatBehead(g.segs);
    if r.popsz + 1 < r.n { PopSame(r, g.live, g.segs, g.spare); }
    else {
      PopLast(r, g.live, g.segs, g.spare);
      FilledBehead(g.segs, r.popsz, r.n, End(r));
    }
  }

  // ---- The queue

  class Queue<T> {
    const N: nat
    var sz: nat
    var popsz: nat
    var pb: Option<Place>
    var pf: Option<Place>
    var ptn: Option<nat>
    var nodes: seq<Node<T>>
    ghost var layout: Layout<T>

    ghost function View(): Rep<T>
      reads this
    {
      Rep(N, sz, popsz, pb, pf, ptn, nodes)
    }

    ghost predicate Valid()
      reads this
    {
      Laid(View(), layout)
    }

    /** The elements, the oldest first */
    ghost function Contents(): seq<T>
      reads this
    {
      Flat(layout.segs)
    }

    /** Nodes of at least two slots */
    constructor (n: nat)
      requires n >= 2
      ensures Valid() && Contents() == [] && N == n && nodes == []
    {
      N := n;
      sz, popsz, pb, pf, ptn, nodes := 0, 0, None, None, None, [];
      layout := Layout([], [], []);
    }

    /** pushNode */
    method AddNode()
      requires Ready(View())
      modifies this`pb, this`pf, this`ptn, this`nodes
      ensures View() == PushNode(old(View()))
    {
      var tn: nat;
      if ptn.Some? {
        tn := ptn.value;
        ptn := nodes[tn].link;
        nodes := nodes[tn := nodes[tn].(link := None)];
      } else {
        tn := |nodes|;
        nodes := nodes + [Node(map[], None)];
      }
      if pb.Some? { nodes := nodes[pb.value.node := nodes[pb.value.node].(link := Some(tn))]; }
      else { pf := Some(Place(tn, 0)); }
      pb := Some(Place(tn, 0));
    }

    /** push, on the fields */
    method AddElement(t: T)
      requires Ready(View())
      modifies this`sz, this`pb, this`pf, this`ptn, this`nodes
      ensures View() == Push(old(View()), t)
    {
      if Offset(sz + popsz, N) != 0 { pb := Some(Place(pb.value.node, pb.value.slot + 1)); } else { AddNode(); }
      sz := sz + 1;
      nodes := nodes[pb.value.node := nodes[pb.value.node].(slots := nodes[pb.value.node].slots[pb.value.slot := t])];
    }

    /** Adds at the back. Elements already there stay in their slots; a node is allocated only when the last
        one is full and the cache is empty. */
    method Add(t: T)
      requires Valid()
      modifies this
      ensures Valid() && Contents() == old(Contents()) + [t] && old(layout).live <= layout.live
      ensures forall a, k :: 0 <= a < |old(nodes)| && k in old(nodes)[a].slots ==>
                a < |nodes| && k in nodes[a].slots && nodes[a].slots[k] == old(nodes)[a].slots[k]
      ensures |nodes| > |old(nodes)| ==> old(layout).spare == []
    {
      PushKeeps(View(), layout, t);
      Undisturbed(View(), layout.live, layout.segs, layout.spare, t);
      ghost var g := PushLayout(View(), layout, t);
      AddElement(t);
      layout := g;
    }

    method Front() returns (t: T)
      requires Valid() && Contents() != []
      ensures t == Contents()[0]
    {
      FrontIsOldest(View(), layout.live, layout.segs, layout.spare);
      t := nodes[pf.value.node].slots[pf.value.slot];
    }

    /** popNode */
    method DropNode()
      requires pf.Some? && pf.value.node < |nodes|
      modifies this`pb, this`pf, this`ptn, this`nodes
      ensures View() == PopNode(old(View()))
    {
      var pn := pf.value.node;
      var ppn := nodes[pn].link;
      nodes := nodes[pn := nodes[pn].(link := ptn)];
      ptn := Some(pn);
      if ppn.Some? { pf := Some(Place(ppn.value, 0)); } else { pf, pb := None, None; }
    }

    /** pop, on the fields */
    method RemoveElement()
      requires Ready(View()) && sz > 0
      modifies this`sz, this`popsz, this`pb, this`pf, this`ptn, this`nodes
      ensures View() == Pop(old(View()))
    {
      nodes := nodes[pf.value.node := nodes[pf.value.node].(slots := nodes[pf.value.node].slots - {pf.value.slot})];
      sz, popsz := sz - 1, popsz + 1;
      if Offset(popsz, N) != 0 {
        pf := Some(Place(pf.value.node, pf.value.slot + 1));
      } else {
        DropNode();
        popsz := 0;
      }
    }

    /** Removes the oldest element; no node is lost. */
    method Remove()
      requires Valid() && Contents() != []
      modifies this
      ensures Valid() && Contents() == old(Contents())[1..] && |nodes| == |old(nodes)|
    {
      PopKeeps(View(), layout);
      ghost var g := PopLayout(View(), layout);
      RemoveElement();
      layout := g;
    }
  }
}
