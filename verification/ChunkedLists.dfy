/** A list cut into segments, as the nodes of a chunked queue or stack hold it. */
module ChunkedLists {
  import opened Common

  lemma {:induction false} FlatAppend<T>(a: seq<seq<T>>, b: seq<seq<T>>)
    ensures Flat(a + b) == Flat(a) + Flat(b)
    decreases |a|
  {
    if a == [] {
      assert a + b == b;
    } else {
      assert (a + b)[1..] == a[1..] + b;
      FlatAppend(a[1..], b);
      assert Flat(a + b) == a[0] + (Flat(a[1..]) + Flat(b));
    }
  }

  lemma FlatOne<T>(s: seq<T>)
    ensures Flat([s]) == s
  {
    assert [s][1..] == [];
    assert s + [] == s;
  }

  /** An element more in the last segment */
  lemma FlatExtend<T>(segs: seq<seq<T>>, x: T)
    requires segs != []
    ensures Flat(segs[|segs| - 1 := segs[|segs| - 1] + [x]]) == Flat(segs) + [x]
  {
    var n := |segs| - 1;
    var last := segs[n];
    assert segs == segs[..n] + [last] && segs[n := last + [x]] == segs[..n] + [last + [x]];
    FlatAppend(segs[..n], [last]);
    FlatAppend(segs[..n], [last + [x]]);
    FlatOne(last);
    FlatOne(last + [x]);
    assert Flat(segs[..n]) + (last + [x]) == (Flat(segs[..n]) + last) + [x];
  }

  /** A new last segment with one element */
  lemma FlatGrow<T>(segs: seq<seq<T>>, x: T)
    ensures Flat(segs + [[x]]) == Flat(segs) + [x]
  {
    FlatAppend(segs, [[x]]);
    FlatOne([x]);
  }

  /** The first element gone from the first segment */
  lemma FlatBehead<T>(segs: seq<seq<T>>)
    requires segs != [] && segs[0] != []
    ensures Flat(segs) != [] && Flat(segs)[0] == segs[0][0]
    ensures Flat(segs[0 := segs[0][1..]]) == Flat(segs)[1..]
    ensures |segs[0]| == 1 ==> Flat(segs[1..]) == Flat(segs)[1..]
  {
    assert segs[0 := segs[0][1..]][1..] == segs[1..];
    if |segs[0]| == 1 { assert segs[0] == [segs[0][0]]; }
  }

  /** All segments but the last fill a node of `n` slots, the first one from slot `lo` on; the last one ends
      before slot `end`. */
  predicate Filled<T>(segs: seq<seq<T>>, lo: nat, n: nat, end: nat) {
    if segs == [] then lo == 0 && end == 0
    else if |segs| == 1 then lo + |segs[0]| == end <= n
    else lo + |segs[0]| == n && Filled(segs[1..], 0, n, end)
  }

  /** How far the list reaches, counted in slots from the start of its first node */
  lemma {:induction false} FilledLength<T>(segs: seq<seq<T>>, lo: nat, n: nat, end: nat)
    requires Filled(segs, lo, n, end) && segs != []
    ensures lo + |Flat(segs)| == n * (|segs| - 1) + end && end <= n
    decreases |segs|
  {
    if |segs| == 1 {
      FlatOne(segs[0]);
      assert segs == [segs[0]];
    } else {
      FilledLength(segs[1..], 0, n, end);
      assert n * (|segs| - 1) == n * (|segs| - 2) + n;
    }
  }

  /** v % n by repeated subtraction: the source masks with n - 1, n being a power of two. */
  function Offset(v: nat, n: nat): nat
    requires n > 0
    decreases v
  {
    if v < n then v else Offset(v - n, n)
  }

  lemma {:induction false} OffsetIs(n: nat, k: nat, r: nat)
    requires r < n
    ensures Offset(n * k + r, n) == r
    decreases k
  {
    if k > 0 {
      assert n * k + r == n * (k - 1) + r + n;
      assert n * k + r - n == n * (k - 1) + r;
      OffsetIs(n, k - 1, r);
    }
  }

  lemma Multiples(n: nat, k: nat, r: nat)
    requires n > 0 && 0 < r <= n
    ensures Offset(n * k + r, n) == 0 <==> r == n
  {
    if r < n { OffsetIs(n, k, r); } else { assert n * (k + 1) == n * k + n; OffsetIs(n, k + 1, 0); }
  }

  /** The next element starts a new node exactly when the last one is full, or there is none. */
  lemma NewNodeNeeded<T>(segs: seq<seq<T>>, lo: nat, n: nat, end: nat)
    requires Filled(segs, lo, n, end) && n > 0 && (segs != [] ==> end > 0)
    ensures Offset(lo + |Flat(segs)|, n) == 0 <==> segs == [] || end == n
    ensures end <= n
  {
    if segs != [] {
      FilledLength(segs, lo, n, end);
      Multiples(n, |segs| - 1, end);
    }
  }

  lemma {:induction false} FilledExtend<T>(segs: seq<seq<T>>, lo: nat, n: nat, end: nat, x: T)
    requires Filled(segs, lo, n, end) && segs != [] && end < n
    ensures Filled(segs[|segs| - 1 := segs[|segs| - 1] + [x]], lo, n, end + 1)
    decreases |segs|
  {
    if |segs| > 1 {
      FilledExtend(segs[1..], 0, n, end, x);
      assert segs[|segs| - 1 := segs[|segs| - 1] + [x]][1..] == segs[1..][|segs| - 2 := segs[|segs| - 1] + [x]];
    }
  }

  lemma {:induction false} FilledGrow<T>(segs: seq<seq<T>>, lo: nat, n: nat, end: nat, x: T)
    requires Filled(segs, lo, n, end) && (segs == [] || end == n) && n > 0
    ensures Filled(segs + [[x]], lo, n, 1)
    decreases |segs|
  {
    if |segs| > 0 {
      assert (segs + [[x]])[1..] == segs[1..] + [[x]];
      if |segs| > 1 { FilledGrow(segs[1..], 0, n, end, x); } else { FilledGrow(segs[1..], 0, n, 0, x); }
    }
  }

  lemma FilledBehead<T>(segs: seq<seq<T>>, lo: nat, n: nat, end: nat)
    requires Filled(segs, lo, n, end) && segs != [] && segs[0] != [] && lo < n
    ensures lo + 1 < n ==> Filled(segs[0 := segs[0][1..]], lo + 1, n, end)
    ensures lo + 1 == n ==> |segs[0]| == 1 && Filled(segs[1..], 0, n, if |segs| == 1 then 0 else end)
  {
    assert segs[0 := segs[0][1..]][1..] == segs[1..];
  }

  /** The last segment ends where the list does. */
  lemma {:induction false} FilledLast<T>(segs: seq<seq<T>>, lo: nat, n: nat, end: nat)
    requires Filled(segs, lo, n, end) && segs != []
    ensures (if |segs| == 1 then lo else 0) + |segs[|segs| - 1]| == end
    decreases |segs|
  {
    if |segs| > 1 { FilledLast(segs[1..], 0, n, end); }
  }

  // ---- What a node holds

  /** Exactly the slots from `lo` on are constructed, and they hold a segment. */
  ghost predicate Slots<T>(m: map<int, T>, lo: nat, seg: seq<T>) {
    && (forall k :: k in m <==> lo <= k < lo + |seg|)
    && (forall k :: lo <= k < lo + |seg| ==> m[k] == seg[k - lo])
  }

  lemma SlotsExtend<T>(m: map<int, T>, lo: nat, seg: seq<T>, x: T)
    requires Slots(m, lo, seg)
    ensures Slots(m[lo + |seg| := x], lo, seg + [x])
  {
  }

  lemma SlotsBehead<T>(m: map<int, T>, lo: nat, seg: seq<T>)
    requires Slots(m, lo, seg) && seg != []
    ensures lo in m && m[lo] == seg[0] && Slots(m - {lo}, lo + 1, seg[1..])
  {
  }

  lemma SlotsShrink<T>(m: map<int, T>, lo: nat, seg: seq<T>)
    requires Slots(m, lo, seg) && seg != []
    ensures var k := lo + |seg| - 1;
            k in m && m[k] == seg[|seg| - 1] && Slots(m - {k}, lo, seg[..|seg| - 1])
  {
  }

  lemma {:induction false} FirstSegment<T>(segs: seq<seq<T>>, lo: nat, n: nat, end: nat)
    requires Filled(segs, lo, n, end) && Flat(segs) != [] && lo < n
    ensures segs != [] && segs[0] != []
  {
    if |segs| == 1 { FlatOne(segs[0]); assert segs == [segs[0]]; }
  }

  // ---- Chains of nodes

  /** A node: the slots that hold a constructed element, and its link. Nodes are named by their place in the
      sequence of all nodes ever allocated. */
  datatype Node<T> = Node(slots: map<int, T>, link: Option<nat>)

  /** A slot of a node */
  datatype Place = Place(node: nat, slot: nat)

  /** Each node's link is the next node of the chain; the last node has none. */
  predicate Chain<T>(nodes: seq<Node<T>>, chain: seq<nat>) {
    forall i :: 0 <= i < |chain| ==> ChainAt(nodes, chain, i)
  }

  predicate ChainAt<T>(nodes: seq<Node<T>>, chain: seq<nat>, i: nat) {
    i < |chain| ==> chain[i] < |nodes| && nodes[chain[i]].link == First(chain[i + 1..])
  }

  function First(chain: seq<nat>): Option<nat> {
    if chain == [] then None else Some(chain[0])
  }

  /** Every node is in exactly one place of exactly one of two chains. */
  predicate Parted(count: nat, live: seq<nat>, spare: seq<nat>) {
    && Distinct(live) && Distinct(spare)
    && (forall a :: a in live ==> a < count && a !in spare)
    && (forall a :: a in spare ==> a < count)
    && (forall a :: 0 <= a < count ==> a in live || a in spare)
  }

  lemma ChainKeeps<T>(nodes: seq<Node<T>>, more: seq<Node<T>>, chain: seq<nat>)
    requires Chain(nodes, chain) && |nodes| <= |more|
    requires forall a :: a in chain ==> a < |nodes| && more[a].link == nodes[a].link
    ensures Chain(more, chain)
  {
    forall i | 0 <= i < |chain| ensures ChainAt(more, chain, i) { assert ChainAt(nodes, chain, i); }
  }

  lemma ChainTail<T>(nodes: seq<Node<T>>, chain: seq<nat>)
    requires Chain(nodes, chain) && chain != []
    ensures Chain(nodes, chain[1..]) && chain[0] < |nodes| && nodes[chain[0]].link == First(chain[1..])
  {
    assert ChainAt(nodes, chain, 0);
    forall i | 0 <= i < |chain[1..]| ensures ChainAt(nodes, chain[1..], i) {
      assert ChainAt(nodes, chain, i + 1);
      assert chain[1..][i + 1..] == chain[i + 2..];
    }
  }

  /** A node in front of a chain, linked to it */
  lemma ChainFront<T>(nodes: seq<Node<T>>, chain: seq<nat>, a: nat)
    requires Chain(nodes, chain) && a < |nodes| && nodes[a].link == First(chain)
    ensures Chain(nodes, [a] + chain)
  {
    var c := [a] + chain;
    forall i | 0 <= i < |c| ensures ChainAt(nodes, c, i) {
      if i == 0 { assert c[1..] == chain; }
      else { assert ChainAt(nodes, chain, i - 1); assert c[i + 1..] == chain[i..]; }
    }
  }

  /** The last node of a chain linked to a node, which ends it now */
  lemma ChainBack<T>(nodes: seq<Node<T>>, more: seq<Node<T>>, chain: seq<nat>, a: nat)
    requires Chain(nodes, chain) && Distinct(chain) && |nodes| <= |more| && a < |more| && more[a].link == None
    requires forall i :: 0 <= i < |chain| - 1 ==> chain[i] < |nodes| && more[chain[i]].link == nodes[chain[i]].link
    requires chain != [] ==> chain[|chain| - 1] < |more| && more[chain[|chain| - 1]].link == Some(a)
    ensures Chain(more, chain + [a])
  {
    var c := chain + [a];
    forall i | 0 <= i < |c| ensures ChainAt(more, c, i) {
      if i < |chain| {
        assert ChainAt(nodes, chain, i);
        if i < |chain| - 1 { assert c[i + 1..] == chain[i + 1..] + [a]; }
      }
    }
  }

  // ---- Taking nodes from the cache and giving them back

  ghost predicate Vacant<T>(m: map<int, T>) {
    forall k :: k !in m
  }

  /** The nodes, cut into the live chain and the cache, in which nothing is constructed */
  ghost predicate Cut<T>(nodes: seq<Node<T>>, cache: Option<nat>, live: seq<nat>, spare: seq<nat>) {
    && Parted(|nodes|, live, spare) && Chain(nodes, spare) && cache == First(spare)
    && forall a :: a in spare ==> Vacant(nodes[a].slots)
  }

  datatype Taken<T> = Taken(node: nat, cache: Option<nat>, nodes: seq<Node<T>>)

  /** A node from the cache, or a new one */
  function TakeNode<T>(cache: Option<nat>, nodes: seq<Node<T>>): (t: Taken<T>)
    requires cache.Some? ==> cache.value < |nodes|
    ensures t.node < |t.nodes| && |nodes| <= |t.nodes|
  {
    match cache
    case Some(c) => Taken(c, nodes[c].link, nodes[c := nodes[c].(link := None)])
    case None => Taken(|nodes|, None, nodes + [Node(map[], None)])
  }

  function Rest(spare: seq<nat>): seq<nat> {
    if spare == [] then [] else spare[1..]
  }

  lemma CutReady<T>(nodes: seq<Node<T>>, cache: Option<nat>, live: seq<nat>, spare: seq<nat>)
    requires Cut(nodes, cache, live, spare)
    ensures cache.Some? ==> cache.value < |nodes|
  {
    if cache.Some? { assert spare[0] in spare; }
  }

  lemma TakeParts(count: nat, live: seq<nat>, spare: seq<nat>, a: nat)
    requires Parted(count, live, spare) && a == if spare == [] then count else spare[0]
    ensures Parted(if spare == [] then count + 1 else count, live + [a], Rest(spare))
  {
    var l, s := live + [a], Rest(spare);
    if spare != [] { assert spare[0] in spare; }
    assert a !in live;
    forall i, j | 0 <= i < j < |l| ensures l[i] != l[j] { assert l[i] in live; }
    forall x | x in s ensures x in spare && x != a {
      var i :| 0 <= i < |s| && s[i] == x;
      assert spare[i + 1] == x;
    }
    forall x | 0 <= x < (if spare == [] then count + 1 else count) ensures x in l || x in s {
      if x < count && x !in live && x != a {
        assert x in spare;
        var i :| 0 <= i < |spare| && spare[i] == x;
        assert s[i - 1] == x;
      }
    }
  }

  /** Taking a node: it is in no chain any more but the live one it will be linked to, ends it, and holds
      nothing; all other nodes are as they were. */
  lemma TakeCuts<T>(nodes: seq<Node<T>>, cache: Option<nat>, live: seq<nat>, spare: seq<nat>)
    requires Cut(nodes, cache, live, spare) && (cache.Some? ==> cache.value < |nodes|)
    ensures var t := TakeNode(cache, nodes);
            && Cut(t.nodes, t.cache, live + [t.node], Rest(spare))
            && t.node !in live && t.nodes[t.node].link == None && Vacant(t.nodes[t.node].slots)
            && (forall a :: 0 <= a < |nodes| && a != t.node ==> t.nodes[a] == nodes[a])
  {
    var t := TakeNode(cache, nodes);
    TakeParts(|nodes|, live, spare, t.node);
    if spare != [] {
      ChainTail(nodes, spare);
      assert spare[0] in spare;
      forall a | a in spare[1..] ensures a in spare && a != t.node {
        var i :| 0 <= i < |spare[1..]| && spare[1..][i] == a;
        assert spare[i + 1] == a;
      }
      ChainKeeps(nodes, t.nodes, spare[1..]);
    }
  }

  lemma GiveParts(count: nat, live: seq<nat>, spare: seq<nat>, rest: seq<nat>, a: nat)
    requires Parted(count, live, spare) && (live == [a] + rest || live == rest + [a])
    ensures Parted(count, rest, [a] + spare) && a < count && a !in rest && a !in spare
  {
    assert a in live;
    var s := [a] + spare;
    forall x | x in rest ensures x in live && x != a {
      var i :| 0 <= i < |rest| && rest[i] == x;
      if live == [a] + rest {
        assert live[i + 1] == x && live[0] == a;
      } else {
        assert live[i] == x && live[|rest|] == a;
      }
    }
    assert Distinct(rest) by {
      forall i, j | 0 <= i < j < |rest| ensures rest[i] != rest[j] {
        if live == [a] + rest {
          assert live[i + 1] == rest[i] && live[j + 1] == rest[j];
        } else {
          assert live[i] == rest[i] && live[j] == rest[j];
        }
      }
    }
    forall x | 0 <= x < count ensures x in rest || x in s {
      if x !in spare && x != a {
        var i :| 0 <= i < |live| && live[i] == x;
        if live == [a] + rest { assert rest[i - 1] == x; } else { assert rest[i] == x; }
      }
      if x in spare { assert x in s; }
      assert s[0] == a;
    }
  }

  function Relink<T>(nodes: seq<Node<T>>, a: nat, link: Option<nat>): seq<Node<T>>
    requires a < |nodes|
  {
    nodes[a := nodes[a].(link := link)]
  }

  function Construct<T>(nodes: seq<Node<T>>, p: Place, x: T): seq<Node<T>>
    requires p.node < |nodes|
  {
    nodes[p.node := nodes[p.node].(slots := nodes[p.node].slots[p.slot := x])]
  }

  function Destroy<T>(nodes: seq<Node<T>>, p: Place): seq<Node<T>>
    requires p.node < |nodes|
  {
    nodes[p.node := nodes[p.node].(slots := nodes[p.node].slots - {p.slot})]
  }

  /** Construction and destruction of elements in live nodes leave both chains as they are. */
  lemma SlotsChanged<T>(nodes: seq<Node<T>>, more: seq<Node<T>>, cache: Option<nat>, live: seq<nat>, spare: seq<nat>,
                        a: nat)
    requires Cut(nodes, cache, live, spare) && Chain(nodes, live) && a in live && |more| == |nodes|
    requires forall b :: 0 <= b < |nodes| ==> more[b].link == nodes[b].link && (b != a ==> more[b] == nodes[b])
    ensures Cut(more, cache, live, spare) && Chain(more, live)
  {
    ChainKeeps(nodes, more, live);
    ChainKeeps(nodes, more, spare);
  }

  /** The first node of the live chain, emptied, becomes the first of the cache. */
  lemma GiveCuts<T>(nodes: seq<Node<T>>, cache: Option<nat>, live: seq<nat>, spare: seq<nat>)
    requires Cut(nodes, cache, live, spare) && Chain(nodes, live) && live != []
    requires live[0] < |nodes| && Vacant(nodes[live[0]].slots)
    ensures var more := Relink(nodes, live[0], cache);
            Cut(more, Some(live[0]), live[1..], [live[0]] + spare) && Chain(more, live[1..])
  {
    var a, more := live[0], Relink(nodes, live[0], cache);
    assert live == [a] + live[1..];
    GiveParts(|nodes|, live, spare, live[1..], a);
    ChainTail(nodes, live);
    ChainKeeps(nodes, more, live[1..]);
    ChainKeeps(nodes, more, spare);
    ChainFront(more, spare, a);
  }
}
