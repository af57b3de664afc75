/** Doubly linked lists of indices, threaded through one link slot of the elements of a vector. */
module InnerLists {
  import opened Common

  datatype Link = Link(prev: Option<nat>, next: Option<nat>)

  const CLEAR: Link := Link(None, None)

  /** A list's fields, and its link slot in every element of the vector */
  datatype Rep = Rep(size: nat, back: Option<nat>, front: Option<nat>, col: seq<Link>)

  predicate InRange(o: Option<nat>, n: nat) {
    o.Some? ==> o.value < n
  }

  // ---- The operations

  function PushedBack(r: Rep, a: nat): Rep
    requires a < |r.col| && InRange(r.back, |r.col|)
  {
    var col := r.col[a := Link(None, r.back)];
    match r.back
    case Some(b) => Rep(r.size + 1, Some(a), r.front, col[b := col[b].(prev := Some(a))])
    case None => Rep(r.size + 1, Some(a), Some(a), col)
  }

  function PushedFront(r: Rep, a: nat): Rep
    requires a < |r.col| && InRange(r.front, |r.col|)
  {
    var col := r.col[a := Link(r.front, None)];
    match r.front
    case Some(f) => Rep(r.size + 1, r.back, Some(a), col[f := col[f].(next := Some(a))])
    case None => Rep(r.size + 1, Some(a), Some(a), col)
  }

  function Erased(r: Rep, a: nat): Rep
    requires a < |r.col| && r.size > 0 && InRange(r.col[a].prev, |r.col|) && InRange(r.col[a].next, |r.col|)
  {
    var l := r.col[a];
    var c1 := if l.prev.Some? then r.col[l.prev.value := r.col[l.prev.value].(next := l.next)] else r.col;
    var c2 := if l.next.Some? then c1[l.next.value := c1[l.next.value].(prev := l.prev)] else c1;
    Rep(r.size - 1, if l.prev.Some? then r.back else l.next, if l.next.Some? then r.front else l.prev, c2[a := CLEAR])
  }

  predicate Contains(r: Rep, a: nat)
    requires a < |r.col|
  {
    r.col[a].prev.Some? || r.col[a].next.Some? || r.front == Some(a)
  }

  // ---- The sequence a list stands for, from its back to its front

  function At(items: seq<nat>, i: int): Option<nat> {
    if 0 <= i < |items| then Some(items[i]) else None
  }

  predicate LinkedAt(col: seq<Link>, items: seq<nat>, i: int) {
    0 <= i < |items| ==> items[i] < |col| && col[items[i]] == Link(At(items, i - 1), At(items, i + 1))
  }

  predicate ClearAt(col: seq<Link>, items: seq<nat>, a: int) {
    0 <= a < |col| && a !in items ==> col[a] == CLEAR
  }

  /** Members are linked to their neighbours, and the links of all other elements are clear. */
  ghost predicate Linked(col: seq<Link>, items: seq<nat>) {
    (forall i :: LinkedAt(col, items, i)) && (forall a :: ClearAt(col, items, a))
  }

  ghost predicate Good(r: Rep, items: seq<nat>) {
    && r.size == |items| && Distinct(items) && Linked(r.col, items)
    && r.back == At(items, 0) && r.front == At(items, |items| - 1)
  }

  lemma PushBackReady(r: Rep, items: seq<nat>)
    requires Good(r, items)
    ensures InRange(r.back, |r.col|) && InRange(r.front, |r.col|)
  {
    assert LinkedAt(r.col, items, 0) && LinkedAt(r.col, items, |items| - 1);
  }

  lemma PushBackAt(r: Rep, items: seq<nat>, a: nat, i: int)
    requires Good(r, items) && a < |r.col| && a !in items && InRange(r.back, |r.col|)
    ensures LinkedAt(PushedBack(r, a).col, [a] + items, i)
  {
    if 0 < i <= |items| {
      assert LinkedAt(r.col, items, i - 1) && items[i - 1] in items;
      if i > 1 { assert items[i - 1] != items[0]; }
    }
  }

  lemma PushBackClear(r: Rep, items: seq<nat>, a: nat, b: int)
    requires Good(r, items) && a < |r.col| && InRange(r.back, |r.col|)
    ensures ClearAt(PushedBack(r, a).col, [a] + items, b)
  {
    if 0 <= b < |r.col| && b !in [a] + items {
      assert ([a] + items)[0] == a;
      assert b !in items;
      assert ClearAt(r.col, items, b);
      if items != [] { assert items[0] in items; }
    }
  }

  lemma PushBackKeeps(r: Rep, items: seq<nat>, a: nat)
    requires Good(r, items) && a < |r.col| && a !in items
    ensures InRange(r.back, |r.col|) && Good(PushedBack(r, a), [a] + items)
  {
    PushBackReady(r, items);
    var q, now := PushedBack(r, a), [a] + items;
    forall i ensures LinkedAt(q.col, now, i) { PushBackAt(r, items, a, i); }
    forall b ensures ClearAt(q.col, now, b) { PushBackClear(r, items, a, b); }
    forall i, j | 0 <= i < j < |now| ensures now[i] != now[j] {
      assert now[j] == items[j - 1] && items[j - 1] in items;
    }
  }

  lemma PushFrontAt(r: Rep, items: seq<nat>, a: nat, i: int)
    requires Good(r, items) && a < |r.col| && a !in items && InRange(r.front, |r.col|)
    ensures LinkedAt(PushedFront(r, a).col, items + [a], i)
  {
    if 0 <= i < |items| {
      assert LinkedAt(r.col, items, i) && items[i] in items;
      if i < |items| - 1 { assert items[i] != items[|items| - 1]; }
    }
  }

  lemma PushFrontClear(r: Rep, items: seq<nat>, a: nat, b: int)
    requires Good(r, items) && a < |r.col| && InRange(r.front, |r.col|)
    ensures ClearAt(PushedFront(r, a).col, items + [a], b)
  {
    if 0 <= b < |r.col| && b !in items + [a] {
      assert (items + [a])[|items|] == a;
      assert b !in items;
      assert ClearAt(r.col, items, b);
      if items != [] { assert items[|items| - 1] in items; }
    }
  }

  lemma PushFrontKeeps(r: Rep, items: seq<nat>, a: nat)
    requires Good(r, items) && a < |r.col| && a !in items
    ensures InRange(r.front, |r.col|) && Good(PushedFront(r, a), items + [a])
  {
    PushBackReady(r, items);
    var q, now := PushedFront(r, a), items + [a];
    forall i ensures LinkedAt(q.col, now, i) { PushFrontAt(r, items, a, i); }
    forall b ensures ClearAt(q.col, now, b) { PushFrontClear(r, items, a, b); }
    forall i, j | 0 <= i < j < |now| ensures now[i] != now[j] { assert now[i] == items[i] && items[i] in items; }
  }

  function Without(items: seq<nat>, k: nat): seq<nat>
    requires k < |items|
  {
    items[..k] + items[k + 1..]
  }

  lemma WithoutAt(items: seq<nat>, k: nat, i: int)
    requires k < |items|
    ensures At(Without(items, k), i) == At(items, if i < k then i else i + 1) || i < 0
  {
  }

  lemma WithoutMembers(items: seq<nat>, k: nat)
    requires k < |items| && Distinct(items)
    ensures Distinct(Without(items, k)) && items[k] !in Without(items, k)
    ensures forall b :: b in Without(items, k) <==> b in items && b != items[k]
  {
    var now := Without(items, k);
    forall i | 0 <= i < |now| ensures now[i] == items[if i < k then i else i + 1] {}
    forall b | b in items && b != items[k] ensures b in now {
      var i :| 0 <= i < |items| && items[i] == b;
      assert now[if i < k then i else i - 1] == b;
    }
  }

  lemma EraseReady(r: Rep, items: seq<nat>, k: nat)
    requires Good(r, items) && k < |items|
    ensures items[k] < |r.col| && r.size > 0
    ensures r.col[items[k]] == Link(At(items, k - 1), At(items, k + 1))
    ensures InRange(At(items, k - 1), |r.col|) && InRange(At(items, k + 1), |r.col|)
  {
    assert LinkedAt(r.col, items, k) && LinkedAt(r.col, items, k - 1) && LinkedAt(r.col, items, k + 1);
  }

  /** What erasing the `k`-th member writes: its neighbours are linked to each other. */
  lemma EraseWrites(r: Rep, items: seq<nat>, k: nat, i: nat)
    requires Good(r, items) && k < |items| && i < |items| && i != k
    requires items[k] < |r.col| && InRange(r.col[items[k]].prev, |r.col|) && InRange(r.col[items[k]].next, |r.col|)
    ensures items[i] < |r.col|
    ensures Erased(r, items[k]).col[items[i]]
         == Link(At(items, if i == k + 1 then k - 1 else i - 1), At(items, if i == k - 1 then k + 1 else i + 1))
  {
    assert LinkedAt(r.col, items, k) && LinkedAt(r.col, items, i);
    assert items[i] != items[k];
    if k > 0 && i != k - 1 { assert items[i] != items[k - 1]; }
    if k + 1 < |items| && i != k + 1 { assert items[i] != items[k + 1]; }
  }

  lemma EraseAt(r: Rep, items: seq<nat>, k: nat, i: int)
    requires Good(r, items) && k < |items|
    requires items[k] < |r.col| && InRange(r.col[items[k]].prev, |r.col|) && InRange(r.col[items[k]].next, |r.col|)
    ensures LinkedAt(Erased(r, items[k]).col, Without(items, k), i)
  {
    if 0 <= i < |items| - 1 {
      EraseWrites(r, items, k, if i < k then i else i + 1);
      assert Without(items, k)[i] == items[if i < k then i else i + 1];
      if i > 0 { WithoutAt(items, k, i - 1); }
      WithoutAt(items, k, i + 1);
    }
  }

  lemma EraseClear(r: Rep, items: seq<nat>, k: nat, b: int)
    requires Good(r, items) && k < |items|
    requires items[k] < |r.col| && InRange(r.col[items[k]].prev, |r.col|) && InRange(r.col[items[k]].next, |r.col|)
    ensures ClearAt(Erased(r, items[k]).col, Without(items, k), b)
  {
    if 0 <= b < |r.col| && b !in Without(items, k) && b != items[k] {
      WithoutMembers(items, k);
      assert LinkedAt(r.col, items, k) && ClearAt(r.col, items, b);
      if k > 0 { assert items[k - 1] in items; }
      if k + 1 < |items| { assert items[k + 1] in items; }
    }
  }

  lemma EraseKeeps(r: Rep, items: seq<nat>, k: nat)
    requires Good(r, items) && k < |items|
    ensures items[k] < |r.col| && r.size > 0
    ensures InRange(r.col[items[k]].prev, |r.col|) && InRange(r.col[items[k]].next, |r.col|)
    ensures Good(Erased(r, items[k]), Without(items, k))
  {
    EraseReady(r, items, k);
    WithoutMembers(items, k);
    var q, now := Erased(r, items[k]), Without(items, k);
    forall i ensures LinkedAt(q.col, now, i) { EraseAt(r, items, k, i); }
    forall b ensures ClearAt(q.col, now, b) { EraseClear(r, items, k, b); }
    WithoutAt(items, k, 0);
    if |items| > 1 { WithoutAt(items, k, |items| - 2); }
  }

  /** `contains` is exact, for every index of the vector. */
  lemma ContainsIsExact(r: Rep, items: seq<nat>, a: nat)
    requires Good(r, items) && a < |r.col|
    ensures Contains(r, a) <==> a in items
  {
    assert ClearAt(r.col, items, a);
    if a in items {
      var i :| 0 <= i < |items| && items[i] == a;
      assert LinkedAt(r.col, items, i);
    } else if items != [] {
      assert items[|items| - 1] in items;
    }
  }

  // ---- A list over a vector whose elements have several link slots

  function Keeping(items: seq<nat>, doomed: set<nat>): seq<nat> {
    if items == [] then [] else (if items[0] in doomed then [] else [items[0]]) + Keeping(items[1..], doomed)
  }

  lemma {:induction false} KeepingStep(items: seq<nat>, k: nat, doomed: set<nat>)
    requires k < |items|
    ensures Keeping(items[..k + 1], doomed)
            == Keeping(items[..k], doomed) + if items[k] in doomed then [] else [items[k]]
    decreases k
  {
    if k == 0 {
      assert items[..1] == [items[0]] && [items[0]][1..] == [] && items[..0] == [];
    } else {
      assert items[..k + 1][1..] == items[1..][..k] && items[..k][1..] == items[1..][..k - 1];
      KeepingStep(items[1..], k - 1, doomed);
    }
  }

  /** Visiting the next member: where it is, what comes after it, and the list with and without it */
  lemma VisitStep(all: seq<nat>, k: nat, kept: seq<nat>, items: seq<nat>)
    requires k < |all| && items == kept + all[k..]
    ensures var n := |kept|;
            && n < |items| && items[n] == all[k] && At(items, n + 1) == At(all, k + 1)
            && Without(items, n) == (kept + []) + all[k + 1..] && items == (kept + [all[k]]) + all[k + 1..]
            && all[..k] + [all[k]] == all[..k + 1]
  {
  }

  lemma VisitReady(r: Rep, items: seq<nat>, all: seq<nat>, k: nat, doomed: set<nat>)
    requires Good(r, items) && k < |all| && items == Keeping(all[..k], doomed) + all[k..]
    ensures var n := |Keeping(all[..k], doomed)|;
            && n < |items| && items[n] == all[k] && all[k] < |r.col| && r.col[all[k]].next == At(all, k + 1)
            && (if all[k] in doomed then Without(items, n) else items) == Keeping(all[..k + 1], doomed) + all[k + 1..]
  {
    VisitStep(all, k, Keeping(all[..k], doomed), items);
    EraseReady(r, items, |Keeping(all[..k], doomed)|);
    KeepingStep(all, k, doomed);
  }

  lemma Prefixes(all: seq<nat>, k: nat)
    requires k < |all|
    ensures all[..k] + [all[k]] == all[..k + 1]
  {
  }

  lemma Whole(all: seq<nat>)
    ensures all[..0] == [] && all[0..] == all && [] + all == all
    ensures all[..|all|] == all && all[|all|..] == [] && all + [] == all
    ensures forall doomed :: Keeping(all, doomed) + [] == Keeping(all, doomed)
  {
  }

  class InnerList {
    const links: array2<Link>
    const slot: nat
    var size: nat
    var back: Option<nat>
    var front: Option<nat>
    /** The members, from back to front */
    ghost var items: seq<nat>

    ghost function Column(): (c: seq<Link>)
      requires slot < links.Length1
      reads links
      ensures |c| == links.Length0 && forall a :: 0 <= a < |c| ==> c[a] == links[a, slot]
    {
      seq(links.Length0, a requires 0 <= a < links.Length0 reads links => links[a, slot])
    }

    ghost function View(): Rep
      requires slot < links.Length1
      reads this, links
    {
      Rep(size, back, front, Column())
    }

    ghost predicate Valid()
      reads this, links
    {
      slot < links.Length1 && Good(View(), items)
    }

    /** The other lists' links are as they were. */
    twostate predicate OthersKept()
      reads links
    {
      forall a, s :: 0 <= a < links.Length0 && 0 <= s < links.Length1 && s != slot ==> links[a, s] == old(links[a, s])
    }

    /** A list over elements whose links in this slot are clear */
    constructor (links: array2<Link>, slot: nat)
      requires slot < links.Length1 && forall a :: 0 <= a < links.Length0 ==> links[a, slot] == CLEAR
      ensures Valid() && items == [] && this.links == links && this.slot == slot
    {
      this.links, this.slot, size, back, front, items := links, slot, 0, None, None, [];
    }

    method PushBack(a: nat)
      requires Valid() && a < links.Length0 && a !in items
      modifies this, links
      ensures Valid() && items == [a] + old(items) && OthersKept()
    {
      PushBackKeeps(View(), items, a);
      ghost var q := PushedBack(View(), a);
      links[a, slot] := Link(None, back);
      if back.Some? {
        links[back.value, slot] := links[back.value, slot].(prev := Some(a));
        back := Some(a);
      } else {
        back, front := Some(a), Some(a);
      }
      size := size + 1;
      items := [a] + items;
      assert Column() == q.col;
    }

    method PushFront(a: nat)
      requires Valid() && a < links.Length0 && a !in items
      modifies this, links
      ensures Valid() && items == old(items) + [a] && OthersKept()
    {
      PushFrontKeeps(View(), items, a);
      ghost var q := PushedFront(View(), a);
      links[a, slot] := Link(front, None);
      if front.Some? {
        links[front.value, slot] := links[front.value, slot].(next := Some(a));
        front := Some(a);
      } else {
        back, front := Some(a), Some(a);
      }
      size := size + 1;
      items := items + [a];
      assert Column() == q.col;
    }

    /** Erases a member; `k` is its place. */
    method Erase(a: nat, ghost k: nat)
      requires Valid() && k < |items| && a == items[k]
      modifies this, links
      ensures Valid() && items == Without(old(items), k) && OthersKept()
    {
      EraseKeeps(View(), items, k);
      ghost var q := Erased(View(), a);
      var l := links[a, slot];
      if l.prev.Some? {
        links[l.prev.value, slot] := links[l.prev.value, slot].(next := l.next);
      } else {
        back := l.next;
      }
      if l.next.Some? {
        links[l.next.value, slot] := links[l.next.value, slot].(prev := l.prev);
      } else {
        front := l.prev;
      }
      size := size - 1;
      links[a, slot] := CLEAR;
      items := Without(items, k);
      assert Column() == q.col;
    }

    method PopFront() returns (a: nat)
      requires Valid() && items != []
      modifies this, links
      ensures Valid() && [a] == old(items)[|old(items)| - 1..] && items == old(items)[..|old(items)| - 1]
              && OthersKept()
    {
      a := front.value;
      Erase(a, |items| - 1);
    }

    method PopBack() returns (a: nat)
      requires Valid() && items != []
      modifies this, links
      ensures Valid() && a == old(items)[0] && items == old(items)[1..] && OthersKept()
    {
      a := back.value;
      Erase(a, 0);
    }

    method Has(a: nat) returns (yes: bool)
      requires Valid() && a < links.Length0
      ensures yes <==> a in items
    {
      ContainsIsExact(View(), items, a);
      yes := links[a, slot].prev.Some? || links[a, slot].next.Some? || front == Some(a);
    }

    /** The callback of forEach: erases the element it is called for when it is in `doomed`. */
    method Call(a: nat, ghost k: nat, doomed: set<nat>)
      requires Valid() && k < |items| && a == items[k]
      modifies this, links
      ensures Valid() && OthersKept() && items == if a in doomed then Without(old(items), k) else old(items)
    {
      if a in doomed { Erase(a, k); }
    }

    /** One turn of forEach: the next index is read before the callback runs. */
    method Visit(crtit: nat, ghost all: seq<nat>, ghost k: nat, doomed: set<nat>) returns (it: Option<nat>)
      requires Valid() && k < |all| && crtit == all[k] && items == Keeping(all[..k], doomed) + all[k..]
      modifies this, links
      ensures Valid() && OthersKept() && items == Keeping(all[..k + 1], doomed) + all[k + 1..] && it == At(all, k + 1)
    {
      ghost var n := |Keeping(all[..k], doomed)|;
      VisitReady(View(), items, all, k, doomed);
      it := links[crtit, slot].next;
      Call(crtit, n, doomed);
    }

    /** forEach visits every member once, from back to front, even when the callback erases it. */
    method ForEach(doomed: set<nat>) returns (visited: seq<nat>)
      requires Valid()
      modifies this, links
      ensures Valid() && visited == old(items) && items == Keeping(old(items), doomed) && OthersKept()
    {
      visited := [];
      ghost var all, k := items, 0;
      var it := back;
      Whole(all);
      while it.Some?
        invariant Valid() && OthersKept() && k <= |all| && visited == all[..k]
        invariant items == Keeping(all[..k], doomed) + all[k..] && it == At(all, k)
        decreases |all| - k
      {
        visited := visited + [it.value];
        Prefixes(all, k);
        it := Visit(it.value, all, k, doomed);
        k := k + 1;
      }
      Whole(all);
    }

    /** clear: front after front */
    method Clear()
      requires Valid()
      modifies this, links
      ensures Valid() && items == [] && OthersKept()
    {
      while size > 0
        invariant Valid() && OthersKept()
        decreases size
      {
        var _ := PopFront();
      }
    }
  }

  /** What is done to one list does not touch another one over the same vector with another slot. */
  method PushBeside(one: InnerList, other: InnerList, a: nat)
    requires one != other && one.links == other.links && one.slot != other.slot && one.Valid() && other.Valid()
    requires a < one.links.Length0 && a !in one.items
    modifies one, one.links
    ensures one.Valid() && other.Valid() && one.items == [a] + old(one.items) && other.items == old(other.items)
  {
    ghost var col := other.Column();
    one.PushBack(a);
    assert other.Column() == col;
  }
}
