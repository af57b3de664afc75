/** The LIFO stack kept in a chain of nodes of `n` slots, linked downwards, with a cache of nodes for reuse. */
module ChunkedStack {
  import opened Common
  import opened ChunkedLists

  /** The stack's fields, and the nodes it has allocated */
  datatype Rep<T> = Rep(n: nat, sz: nat, top: Option<Place>, cache: Option<nat>, nodes: seq<Node<T>>)

  predicate Ready<T>(r: Rep<T>) {
    && r.n > 0 && (r.cache.Some? ==> r.cache.value < |r.nodes|)
    && (r.top.Some? ==> r.top.value.node < |r.nodes|)
    && (Offset(r.sz, r.n) != 0 ==> r.top.Some?)
    && (r.sz > 0 ==> r.top.Some? && (Offset(r.sz - 1, r.n) != 0 ==> r.top.value.slot > 0))
  }

  function NodeOf(p: Option<Place>): Option<nat> {
    if p.Some? then Some(p.value.node) else None
  }

  /** pushNode */
  function PushNode<T>(r: Rep<T>): Rep<T>
    requires Ready(r)
  {
    var t := TakeNode(r.cache, r.nodes);
    r.(cache := t.cache, nodes := Relink(t.nodes, t.node, NodeOf(r.top)), top := Some(Place(t.node, 0)))
  }

  function Advance<T>(r: Rep<T>): (a: Rep<T>)
    requires Ready(r)
    ensures a.top.Some? && a.top.value.node < |a.nodes|
  {
    if Offset(r.sz, r.n) != 0 then r.(top := Some(Place(r.top.value.node, r.top.value.slot + 1))) else PushNode(r)
  }

  function Push<T>(r: Rep<T>, x: T): Rep<T>
    requires Ready(r)
  {
    var a := Advance(r);
    a.(sz := a.sz + 1, nodes := Construct(a.nodes, a.top.value, x))
  }

  /** popNode: the node goes to the cache, and the top is the last slot of the node below. */
  function PopNode<T>(r: Rep<T>): Rep<T>
    requires r.n > 0 && r.top.Some? && r.top.value.node < |r.nodes|
  {
    var a := r.top.value.node;
    r.(nodes := Relink(r.nodes, a, r.cache), cache := Some(a),
       top := match r.nodes[a].link case Some(b) => Some(Place(b, r.n - 1)) case None => None)
  }

  function Pop<T>(r: Rep<T>): Rep<T>
    requires Ready(r) && r.sz > 0
  {
    var d := r.(sz := r.sz - 1, nodes := Destroy(r.nodes, r.top.value));
    if Offset(r.sz - 1, r.n) != 0 then d.(top := Some(Place(r.top.value.node, r.top.value.slot - 1))) else PopNode(d)
  }

  // ---- The list in the nodes, the topmost node first

  /** The elements from the bottom up */
  function Upward<T>(segs: seq<seq<T>>): seq<T> {
    if segs == [] then [] else Upward(segs[1..]) + segs[0]
  }

  /** The topmost node holds at least one element, the others are full. */
  predicate Filled<T>(segs: seq<seq<T>>, n: nat) {
    segs != [] ==> 0 < |segs[0]| <= n && forall i :: 0 < i < |segs| ==> |segs[i]| == n
  }

  lemma {:induction false} FullLength<T>(segs: seq<seq<T>>, n: nat)
    requires forall i :: 0 <= i < |segs| ==> |segs[i]| == n
    ensures |Upward(segs)| == n * |segs|
    decreases |segs|
  {
    if segs != [] {
      FullLength(segs[1..], n);
      assert n * |segs| == n * (|segs| - 1) + n;
    }
  }

  /** Where a push starts a new node, and where a pop leaves one */
  lemma NodeEdges<T>(segs: seq<seq<T>>, n: nat)
    requires Filled(segs, n) && n > 1
    ensures Offset(|Upward(segs)|, n) == 0 <==> segs == [] || |segs[0]| == n
    ensures segs != [] ==> |Upward(segs)| > 0 && (Offset(|Upward(segs)| - 1, n) == 0 <==> |segs[0]| == 1)
  {
    if segs != [] {
      FullLength(segs[1..], n);
      var k := |segs| - 1;
      Multiples(n, k, |segs[0]|);
      if |segs[0]| > 1 { Multiples(n, k, |segs[0]| - 1); } else { OffsetIs(n, k, 0); }
    }
  }

  lemma UpwardPush<T>(segs: seq<seq<T>>, x: T)
    ensures Upward([[x]] + segs) == Upward(segs) + [x]
    ensures segs != [] ==> Upward(segs[0 := segs[0] + [x]]) == Upward(segs) + [x]
  {
    assert ([[x]] + segs)[1..] == segs;
    if segs != [] {
      assert segs[0 := segs[0] + [x]][1..] == segs[1..];
      assert Upward(segs[1..]) + (segs[0] + [x]) == (Upward(segs[1..]) + segs[0]) + [x];
    }
  }

  lemma UpwardPop<T>(segs: seq<seq<T>>)
    requires segs != [] && segs[0] != []
    ensures var s, u := segs[0], Upward(segs);
            && u != [] && u[|u| - 1] == s[|s| - 1]
            && Upward(segs[0 := s[..|s| - 1]]) == u[..|u| - 1]
            && (|s| == 1 ==> Upward(segs[1..]) == u[..|u| - 1])
  {
    var s := segs[0];
    assert segs[0 := s[..|s| - 1]][1..] == segs[1..];
  }

  // ---- The invariant

  datatype Layout<T> = Layout(live: seq<nat>, segs: seq<seq<T>>, spare: seq<nat>)

  ghost predicate Holds<T>(nodes: seq<Node<T>>, live: seq<nat>, segs: seq<seq<T>>) {
    && |segs| == |live|
    && forall i :: 0 <= i < |live| ==> live[i] < |nodes| && Slots(nodes[live[i]].slots, 0, segs[i])
  }

  ghost predicate Laid<T>(r: Rep<T>, g: Layout<T>) {
    && r.n >= 2 && r.sz == |Upward(g.segs)| && Filled(g.segs, r.n)
    && Cut(r.nodes, r.cache, g.live, g.spare) && Chain(r.nodes, g.live) && Holds(r.nodes, g.live, g.segs)
    && r.top == if g.live == [] then None else Some(Place(g.live[0], |g.segs[0]| - 1))
  }

  lemma LaidReady<T>(r: Rep<T>, g: Layout<T>)
    requires Laid(r, g)
    ensures Ready(r) && (Offset(r.sz, r.n) == 0 <==> g.segs == [] || |g.segs[0]| == r.n)
    ensures g.segs != [] ==> r.sz > 0 && (Offset(r.sz - 1, r.n) == 0 <==> |g.segs[0]| == 1)
  {
    CutReady(r.nodes, r.cache, g.live, g.spare);
    NodeEdges(g.segs, r.n);
    if g.live != [] { assert g.live[0] in g.live; }
  }

  lemma HoldsTop<T>(nodes: seq<Node<T>>, more: seq<Node<T>>, live: seq<nat>, segs: seq<seq<T>>, s: seq<T>)
    requires Holds(nodes, live, segs) && Distinct(live) && live != [] && |more| == |nodes|
    requires forall b :: 0 <= b < |nodes| && b != live[0] ==> more[b] == nodes[b]
    requires Slots(more[live[0]].slots, 0, s)
    ensures Holds(more, live, segs[0 := s])
  {
    forall i | 0 <= i < |live| ensures Slots(more[live[i]].slots, 0, segs[0 := s][i]) {
      if i > 0 { assert live[i] != live[0] && Slots(nodes[live[i]].slots, 0, segs[i]); }
    }
  }

  // ---- push

  function PushLayout<T>(r: Rep<T>, g: Layout<T>, x: T): Layout<T>
    requires Ready(r)
  {
    if Offset(r.sz, r.n) != 0 && g.segs != [] then g.(segs := g.segs[0 := g.segs[0] + [x]])
    else Layout([TakeNode(r.cache, r.nodes).node] + g.live, [[x]] + g.segs, Rest(g.spare))
  }

  lemma PushSame<T>(r: Rep<T>, g: Layout<T>, x: T)
    requires Laid(r, g) && Ready(r) && Offset(r.sz, r.n) != 0
    ensures g.segs != [] && Laid(Push(r, x), g.(segs := g.segs[0 := g.segs[0] + [x]]))
  {
    LaidReady(r, g);
    var a, q := g.live[0], Push(r, x);
    assert a in g.live;
    assert Slots(r.nodes[a].slots, 0, g.segs[0]);
    SlotsExtend(r.nodes[a].slots, 0, g.segs[0], x);
    HoldsTop(r.nodes, q.nodes, g.live, g.segs, g.segs[0] + [x]);
    SlotsChanged(r.nodes, q.nodes, r.cache, g.live, g.spare, a);
    UpwardPush(g.segs, x);
  }

  /** The taken node is put in front of the live chain instead of at its end. */
  lemma PartedFront(count: nat, live: seq<nat>, spare: seq<nat>, a: nat)
    requires Parted(count, live + [a], spare)
    ensures Parted(count, [a] + live, spare)
  {
    var l, k := [a] + live, live + [a];
    forall x | x in l ensures x in k {
      if x == a { assert k[|live|] == a; } else { var i :| 0 <= i < |l| && l[i] == x; assert k[i - 1] == x; }
    }
    forall x | x in k ensures x in l {
      if x == a { assert l[0] == a; } else { var i :| 0 <= i < |k| && k[i] == x; assert l[i + 1] == x; }
    }
    forall i, j | 0 <= i < j < |l| ensures l[i] != l[j] {
      if i == 0 { assert k[j - 1] != k[|live|]; } else { assert k[i - 1] != k[j - 1]; }
    }
  }

  lemma NodePushed<T>(r: Rep<T>, g: Layout<T>, a: nat)
    requires Laid(r, g) && Ready(r) && a == TakeNode(r.cache, r.nodes).node
    ensures var q := PushNode(r);
            && a < |q.nodes| && Cut(q.nodes, q.cache, [a] + g.live, Rest(g.spare)) && Chain(q.nodes, [a] + g.live)
            && Holds(q.nodes, g.live, g.segs) && a !in g.live && Vacant(q.nodes[a].slots)
  {
    TakeCuts(r.nodes, r.cache, g.live, g.spare);
    var t, q := TakeNode(r.cache, r.nodes), PushNode(r);
    PartedFront(|t.nodes|, g.live, Rest(g.spare), a);
    assert (g.live + [a])[|g.live|] == a;
    forall i | 0 <= i < |g.live|
      ensures g.live[i] in g.live && g.live[i] < |q.nodes| && q.nodes[g.live[i]] == r.nodes[g.live[i]]
    {
    }
    ChainKeeps(r.nodes, q.nodes, g.live);
    ChainKeeps(t.nodes, q.nodes, Rest(g.spare));
    ChainFront(q.nodes, g.live, a);
  }

  lemma HoldsGrow<T>(nodes: seq<Node<T>>, live: seq<nat>, segs: seq<seq<T>>, a: nat, x: T)
    requires Holds(nodes, live, segs) && a < |nodes| && a !in live && Vacant(nodes[a].slots)
    ensures Holds(Construct(nodes, Place(a, 0), x), [a] + live, [[x]] + segs)
  {
    var more, all, now := Construct(nodes, Place(a, 0), x), [a] + live, [[x]] + segs;
    forall i | 0 <= i < |all| ensures all[i] < |more| && Slots(more[all[i]].slots, 0, now[i]) {
      if i > 0 { assert live[i - 1] in live && all[i] == live[i - 1] && now[i] == segs[i - 1]; }
    }
  }

  lemma PushNew<T>(r: Rep<T>, g: Layout<T>, x: T)
    requires Laid(r, g) && Ready(r) && Offset(r.sz, r.n) == 0
    ensures Laid(Push(r, x), Layout([TakeNode(r.cache, r.nodes).node] + g.live, [[x]] + g.segs, Rest(g.spare)))
  {
    LaidReady(r, g);
    var a, p, q := TakeNode(r.cache, r.nodes).node, PushNode(r), Push(r, x);
    NodePushed(r, g, a);
    HoldsGrow(p.nodes, g.live, g.segs, a, x);
    assert ([a] + g.live)[0] == a;
    SlotsChanged(p.nodes, q.nodes, p.cache, [a] + g.live, Rest(g.spare), a);
    UpwardPush(g.segs, x);
  }

  /** Pushing adds on top of the list the nodes hold. */
  lemma PushKeeps<T>(r: Rep<T>, g: Layout<T>, x: T)
    requires Laid(r, g)
    ensures Ready(r) && Laid(Push(r, x), PushLayout(r, g, x))
    ensures Upward(PushLayout(r, g, x).segs) == Upward(g.segs) + [x]
  {
    LaidReady(r, g);
    UpwardPush(g.segs, x);
    if Offset(r.sz, r.n) != 0 { PushSame(r, g, x); } else { PushNew(r, g, x); }
  }

  /** Pushing changes no constructed slot, and allocates only when the cache is empty. */
  lemma Undisturbed<T>(r: Rep<T>, g: Layout<T>, x: T)
    requires Laid(r, g) && Ready(r)
    ensures var q := Push(r, x);
            && (forall a, k :: 0 <= a < |r.nodes| && k in r.nodes[a].slots ==>
                  a < |q.nodes| && k in q.nodes[a].slots && q.nodes[a].slots[k] == r.nodes[a].slots[k])
            && (|q.nodes| > |r.nodes| ==> g.spare == [])
  {
    LaidReady(r, g);
    if Offset(r.sz, r.n) != 0 { assert Slots(r.nodes[g.live[0]].slots, 0, g.segs[0]); }
    else {
      TakeCuts(r.nodes, r.cache, g.live, g.spare);
      NodePushed(r, g, TakeNode(r.cache, r.nodes).node);
    }
  }

  // ---- pop

  lemma TopIsNewest<T>(r: Rep<T>, g: Layout<T>)
    requires Laid(r, g) && r.sz > 0
    ensures g.live != [] && g.segs != [] && g.segs[0] != [] && r.top.Some? && r.top.value.node < |r.nodes|
    ensures r.top.value.slot in r.nodes[r.top.value.node].slots
    ensures r.nodes[r.top.value.node].slots[r.top.value.slot] == Upward(g.segs)[|Upward(g.segs)| - 1]
  {
    UpwardPop(g.segs);
    assert Slots(r.nodes[g.live[0]].slots, 0, g.segs[0]);
    SlotsShrink(r.nodes[g.live[0]].slots, 0, g.segs[0]);
  }

  function PopLayout<T>(g: Layout<T>): Layout<T>
    requires g.segs != [] && g.segs[0] != [] && g.live != []
  {
    if |g.segs[0]| > 1 then g.(segs := g.segs[0 := g.segs[0][..|g.segs[0]| - 1]])
    else Layout(g.live[1..], g.segs[1..], [g.live[0]] + g.spare)
  }

  lemma PopSame<T>(r: Rep<T>, g: Layout<T>)
    requires Laid(r, g) && Ready(r) && r.sz > 0 && g.segs != [] && |g.segs[0]| > 1
    ensures Laid(Pop(r), g.(segs := g.segs[0 := g.segs[0][..|g.segs[0]| - 1]]))
  {
    LaidReady(r, g);
    var a, q, s := g.live[0], Pop(r), g.segs[0];
    assert a in g.live;
    assert Slots(r.nodes[a].slots, 0, s);
    SlotsShrink(r.nodes[a].slots, 0, s);
    HoldsTop(r.nodes, q.nodes, g.live, g.segs, s[..|s| - 1]);
    SlotsChanged(r.nodes, q.nodes, r.cache, g.live, g.spare, a);
    UpwardPop(g.segs);
  }

  lemma HoldsBelow<T>(nodes: seq<Node<T>>, more: seq<Node<T>>, live: seq<nat>, segs: seq<seq<T>>)
    requires Holds(nodes, live, segs) && Distinct(live) && live != [] && |more| == |nodes|
    requires forall b :: 0 <= b < |nodes| && b != live[0] ==> more[b] == nodes[b]
    ensures Holds(more, live[1..], segs[1..])
  {
    forall i | 0 <= i < |live[1..]| ensures live[1..][i] < |more| && Slots(more[live[1..][i]].slots, 0, segs[1..][i]) {
      assert live[1..][i] == live[i + 1] && segs[1..][i] == segs[i + 1] && live[i + 1] != live[0];
      assert Slots(nodes[live[i + 1]].slots, 0, segs[i + 1]);
    }
  }

  lemma PopLast<T>(r: Rep<T>, g: Layout<T>)
    requires Laid(r, g) && Ready(r) && r.sz > 0 && g.segs != [] && |g.segs[0]| == 1
    ensures Laid(Pop(r), Layout(g.live[1..], g.segs[1..], [g.live[0]] + g.spare))
  {
    LaidReady(r, g);
    var a, q := g.live[0], Pop(r);
    assert a in g.live;
    assert Slots(r.nodes[a].slots, 0, g.segs[0]);
    SlotsShrink(r.nodes[a].slots, 0, g.segs[0]);
    var d := Destroy(r.nodes, Place(a, 0));
    SlotsChanged(r.nodes, d, r.cache, g.live, g.spare, a);
    GiveCuts(d, r.cache, g.live, g.spare);
    ChainTail(d, g.live);
    HoldsBelow(r.nodes, q.nodes, g.live, g.segs);
    UpwardPop(g.segs);
  }

  /** Popping takes the last element off the list; a node that is used up goes to the cache, and when it was
      the last one, as popNode asserts, nothing is left. */
  lemma PopKeeps<T>(r: Rep<T>, g: Layout<T>)
    requires Laid(r, g) && r.sz > 0
    ensures Ready(r) && g.segs != [] && g.segs[0] != [] && g.live != []
    ensures Laid(Pop(r), PopLayout(g)) && Upward(PopLayout(g).segs) == Upward(g.segs)[..|Upward(g.segs)| - 1]
    ensures |g.live| == 1 && |g.segs[0]| == 1 ==> r.sz == 1
  {
    LaidReady(r, g);
    TopIsNewest(r, g);
    UpwardPop(g.segs);
    if |g.segs[0]| > 1 { PopSame(r, g); } else { PopLast(r, g); }
    if |g.live| == 1 { assert g.segs[1..] == []; }
  }

  // ---- The stack

  class Stack<T> {
    const N: nat
    var sz: nat
    var p: Option<Place>
    var ptn: Option<nat>
    var nodes: seq<Node<T>>
    ghost var layout: Layout<T>

    ghost function View(): Rep<T>
      reads this
    {
      Rep(N, sz, p, ptn, nodes)
    }

    ghost predicate Valid()
      reads this
    {
      Laid(View(), layout)
    }

    /** The elements, the oldest first */
    ghost function Contents(): seq<T>
      reads this
    {
      Upward(layout.segs)
    }

    constructor (n: nat)
      requires n >= 2
      ensures Valid() && Contents() == [] && N == n && nodes == []
    {
      N := n;
      sz, p, ptn, nodes, layout := 0, None, None, [], Layout([], [], []);
    }

    /** pushNode */
    method AddNode()
      requires Ready(View())
      modifies this`p, this`ptn, this`nodes
      ensures View() == PushNode(old(View()))
    {
      var below := NodeOf(p);
      var pn: nat;
      if ptn.Some? {
        pn := ptn.value;
        ptn := nodes[pn].link;
        nodes := nodes[pn := nodes[pn].(link := below)];
      } else {
        pn := |nodes|;
        nodes := nodes + [Node(map[], below)];
      }
      p := Some(Place(pn, 0));
      assert nodes == PushNode(old(View())).nodes;
    }

    /** push, on the fields */
    method AddElement(t: T)
      requires Ready(View())
      modifies this`sz, this`p, this`ptn, this`nodes
      ensures View() == Push(old(View()), t)
    {
      if Offset(sz, N) != 0 { p := Some(Place(p.value.node, p.value.slot + 1)); } else { AddNode(); }
      sz := sz + 1;
      nodes := nodes[p.value.node := nodes[p.value.node].(slots := nodes[p.value.node].slots[p.value.slot := t])];
    }

    /** Adds on top. Elements already there stay in their slots; a node is allocated only when the topmost one
        is full and the cache is empty. */
    method Add(t: T)
      requires Valid()
      modifies this
      ensures Valid() && Contents() == old(Contents()) + [t]
      ensures forall a, k :: 0 <= a < |old(nodes)| && k in old(nodes)[a].slots ==>
                a < |nodes| && k in nodes[a].slots && nodes[a].slots[k] == old(nodes)[a].slots[k]
      ensures |nodes| > |old(nodes)| ==> old(layout).spare == []
    {
      PushKeeps(View(), layout, t);
      Undisturbed(View(), layout, t);
      ghost var g := PushLayout(View(), layout, t);
      AddElement(t);
      layout := g;
    }

    method Top() returns (t: T)
      requires Valid() && Contents() != []
      ensures t == Contents()[|Contents()| - 1]
    {
      TopIsNewest(View(), layout);
      t := nodes[p.value.node].slots[p.value.slot];
    }

    /** popNode */
    method DropNode()
      requires N > 0 && p.Some? && p.value.node < |nodes|
      modifies this`p, this`ptn, this`nodes
      ensures View() == PopNode(old(View()))
    {
      var pn := p.value.node;
      var ppn := nodes[pn].link;
      nodes := nodes[pn := nodes[pn].(link := ptn)];
      ptn := Some(pn);
      if ppn.Some? { p := Some(Place(ppn.value, N - 1)); } else { p := None; }
    }

    /** pop, on the fields */
    method RemoveElement()
      requires Ready(View()) && sz > 0
      modifies this`sz, this`p, this`ptn, this`nodes
      ensures View() == Pop(old(View()))
    {
      nodes := nodes[p.value.node := nodes[p.value.node].(slots := nodes[p.value.node].slots - {p.value.slot})];
      sz := sz - 1;
      if Offset(sz, N) != 0 { p := Some(Place(p.value.node, p.value.slot - 1)); } else { DropNode(); }
    }

    /** Removes the newest element; no node is lost. */
    method Remove()
      requires Valid() && Contents() != []
      modifies this
      ensures Valid() && Contents() == old(Contents())[..|old(Contents())| - 1] && |nodes| == |old(nodes)|
    {
      PopKeeps(View(), layout);
      ghost var g := PopLayout(layout);
      RemoveElement();
      layout := g;
    }
  }
}
