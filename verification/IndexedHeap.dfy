/**
 * The priority queue of one system
 * (src/daemon/scheduler.hh, class IndexedHeap): a 4-ary heap and a position
 * table that are proved to implement a finite map from id to key.
 */
module HeapOrder {

  datatype Item = Item(key: real, id: int)

  const NPOS: int := -1

  /** The pair order the heap compares by. */
  predicate Le(a: Item, b: Item) {
    a.key < b.key || (a.key == b.key && a.id <= b.id)
  }

  function Parent(i: int): int
    requires i > 0
  {
    (i - 1) / 4
  }

  /** `pos` and `heap` are mutually inverse. */
  ghost predicate Linked(heap: seq<Item>, pos: seq<int>) {
    && (forall i :: 0 <= i < |heap| ==> 0 <= heap[i].id < |pos| && pos[heap[i].id] == i)
    && (forall d :: 0 <= d < |pos| && pos[d] != NPOS ==> 0 <= pos[d] < |heap| && heap[pos[d]].id == d)
  }

  /** The finite map a linked heap stands for. */
  ghost function MapOf(heap: seq<Item>, pos: seq<int>): map<int, real>
    requires Linked(heap, pos)
  {
    map d | 0 <= d < |pos| && pos[d] != NPOS :: heap[pos[d]].key
  }

  ghost predicate InOrder(heap: seq<Item>, j: int) {
    0 < j < |heap| ==> Le(heap[Parent(j)], heap[j])
  }

  ghost predicate Ordered(heap: seq<Item>) {
    forall j :: 0 < j < |heap| ==> InOrder(heap, j)
  }

  /** Ordered but for slot `i`, whose neighbours are in order with each other. */
  ghost predicate OrderedAround(heap: seq<Item>, i: int) {
    && (forall j :: 0 < j < |heap| && j != i && Parent(j) != i ==> InOrder(heap, j))
    && (forall j :: 0 < i < j < |heap| && Parent(j) == i ==> Le(heap[Parent(i)], heap[j]))
  }

  ghost predicate BelowOk(heap: seq<Item>, i: int) {
    forall j :: 0 < j < |heap| && Parent(j) == i ==> InOrder(heap, j)
  }

  /** Ordered around `i` and above it: only its children may be out of order. */
  ghost predicate OrderedAbove(heap: seq<Item>, i: int) {
    OrderedAround(heap, i) && InOrder(heap, i)
  }

  function Swapped(heap: seq<Item>, i: int, j: int): (r: seq<Item>)
    requires 0 <= i < |heap| && 0 <= j < |heap|
    ensures |r| == |heap|
  {
    heap[i := heap[j]][j := heap[i]]
  }

  lemma SwapLinked(heap: seq<Item>, pos: seq<int>, i: int, j: int)
    requires Linked(heap, pos)
    requires 0 <= i < |heap| && 0 <= j < |heap| && i != j
    ensures var pos' := pos[heap[j].id := i][heap[i].id := j];
            && Linked(Swapped(heap, i, j), pos')
            && MapOf(Swapped(heap, i, j), pos') == MapOf(heap, pos)
  {
  }

  lemma SwapUp(heap: seq<Item>, i: int)
    requires 0 < i < |heap| && OrderedAround(heap, i)
    requires !Le(heap[Parent(i)], heap[i])
    ensures OrderedAround(Swapped(heap, i, Parent(i)), Parent(i))
    ensures BelowOk(Swapped(heap, i, Parent(i)), Parent(i))
  {
    var p := Parent(i);
    var h := Swapped(heap, i, p);
    forall j | 0 < j < |h| && Parent(j) == p
      ensures InOrder(h, j)
    {
      assert j != i ==> InOrder(heap, j);
    }
    forall j | 0 < j < |h| && j != p && Parent(j) != p
      ensures InOrder(h, j)
    {
      assert j != i && (Parent(j) != i ==> InOrder(heap, j));
    }
    forall j | 0 < p < j < |h| && Parent(j) == p
      ensures Le(h[Parent(p)], h[j])
    {
      assert InOrder(heap, p);
      assert j != i ==> InOrder(heap, j);
    }
  }

  ghost predicate BestChild(heap: seq<Item>, i: int, c: int) {
    && 0 < c < |heap| && Parent(c) == i
    && forall j :: 0 < j < |heap| && Parent(j) == i ==> Le(heap[c], heap[j])
  }

  lemma SwapDown(heap: seq<Item>, i: int, c: int)
    requires 0 <= i < |heap| && OrderedAbove(heap, i)
    requires BestChild(heap, i, c) && !Le(heap[i], heap[c])
    ensures OrderedAbove(Swapped(heap, i, c), c)
  {
  }

  lemma BelowSettled(heap: seq<Item>, other: seq<Item>, i: int, c: int)
    requires 0 <= i < |heap| == |other| && (forall j :: 0 <= j < |heap| && j != i ==> heap[j] == other[j])
    ensures |heap| <= 4 * i + 1 ==> BelowOk(heap, i)
    ensures BestChild(other, i, c) ==> BestChild(heap, i, c)
    ensures BestChild(other, i, c) && Le(heap[i], heap[c]) ==> BelowOk(heap, i)
  {
  }

  lemma AllInOrder(heap: seq<Item>, i: int)
    requires OrderedAround(heap, i) && InOrder(heap, i) && BelowOk(heap, i)
    ensures Ordered(heap)
  {
  }

  lemma AppendAround(heap: seq<Item>, item: Item)
    requires Ordered(heap)
    ensures OrderedAround(heap + [item], |heap|) && BelowOk(heap + [item], |heap|)
  {
    var h := heap + [item];
    forall j | 0 < j < |h| && j != |heap|
      ensures InOrder(h, j)
    {
      assert InOrder(heap, j);
    }
  }

  lemma ReplaceAround(heap: seq<Item>, i: int, item: Item)
    requires Ordered(heap) && 0 <= i < |heap|
    ensures OrderedAround(heap[i := item], i)
    ensures Le(item, heap[i]) ==> BelowOk(heap[i := item], i)
    ensures Le(heap[i], item) ==> InOrder(heap[i := item], i)
  {
    var h := heap[i := item];
    forall j | 0 < j < |h|
      ensures InOrder(heap, j) && (j != i && Parent(j) != i ==> InOrder(h, j))
    {
    }
    forall j | 0 < j < |h| && Parent(j) == i && Le(item, heap[i])
      ensures InOrder(h, j)
    {
      assert InOrder(heap, j);
    }
    assert 0 < i ==> InOrder(heap, i);
    forall j | 0 < i < j < |h| && Parent(j) == i
      ensures Le(h[Parent(i)], h[j])
    {
      assert InOrder(heap, j) && InOrder(heap, i);
    }
  }

  lemma DropLast(heap: seq<Item>)
    requires Ordered(heap) && heap != []
    ensures Ordered(heap[..|heap| - 1])
  {
    var h := heap[..|heap| - 1];
    forall j | 0 < j < |h|
      ensures InOrder(h, j)
    {
      assert InOrder(heap, j);
    }
  }

  lemma SetLinked(heap: seq<Item>, pos: seq<int>, item: Item)
    requires Linked(heap, pos) && 0 <= item.id < |pos|
    ensures pos[item.id] == NPOS ==>
      && Linked(heap + [item], pos[item.id := |heap|])
      && MapOf(heap + [item], pos[item.id := |heap|]) == MapOf(heap, pos)[item.id := item.key]
    ensures pos[item.id] != NPOS ==>
      && Linked(heap[pos[item.id] := item], pos)
      && MapOf(heap[pos[item.id] := item], pos) == MapOf(heap, pos)[item.id := item.key]
  {
  }

  lemma GrowLinked(heap: seq<Item>, pos: seq<int>, n: nat)
    requires Linked(heap, pos)
    ensures Linked(heap, pos + seq(n, _ => NPOS))
    ensures MapOf(heap, pos + seq(n, _ => NPOS)) == MapOf(heap, pos)
  {
  }

  lemma LinkedAt(heap: seq<Item>, pos: seq<int>, d: int)
    requires Linked(heap, pos)
    ensures 0 <= d < |pos| && pos[d] != NPOS ==> 0 <= pos[d] < |heap| && heap[pos[d]].id == d
    ensures forall i :: 0 <= i < |heap| ==> 0 <= heap[i].id < |pos| && pos[heap[i].id] == i
  {
  }

  lemma KeyOrder(a: Item, b: Item)
    requires a.id == b.id
    ensures if b.key < a.key then Le(b, a) else Le(a, b)
  {
  }

  /** Taking `d` out and moving the last element into its place. */
  lemma EraseLinked(heap: seq<Item>, pos: seq<int>, d: int)
    requires Linked(heap, pos) && 0 <= d < |pos| && pos[d] != NPOS
    ensures var n := |heap| - 1;
            var h, ps := heap[..n], pos[d := NPOS];
            if pos[d] == n then
              Linked(h, ps) && MapOf(h, ps) == MapOf(heap, pos) - {d}
            else
              && Linked(h[pos[d] := heap[n]], ps[heap[n].id := pos[d]])
              && MapOf(h[pos[d] := heap[n]], ps[heap[n].id := pos[d]]) == MapOf(heap, pos) - {d}
  {
  }

  lemma {:induction false} RootLeast(heap: seq<Item>, i: int)
    requires Ordered(heap) && 0 <= i < |heap|
    ensures Le(heap[0], heap[i])
    decreases i
  {
    if i > 0 {
      assert InOrder(heap, i);
      RootLeast(heap, Parent(i));
    }
  }
}

module IndexedHeaps {
  import opened HeapOrder

  class IndexedHeap {
    var heap: seq<Item>
    var pos: seq<int>
    ghost const owner: string   // the system it queues for

    ghost predicate Valid()
      reads this
    {
      Linked(heap, pos) && Ordered(heap)
    }

    ghost function Contents(): map<int, real>
      reads this
      requires Valid()
    {
      MapOf(heap, pos)
    }

    constructor (ghost owner: string)
      ensures Valid() && Contents() == map[] && this.owner == owner
    {
      this.owner := owner;
      heap, pos := [], [];
    }

    method SiftUp(start: int) returns (end: int)
      requires 0 <= start < |heap| && Linked(heap, pos) && OrderedAround(heap, start)
      modifies this
      ensures Linked(heap, pos) && MapOf(heap, pos) == old(MapOf(heap, pos))
      ensures 0 <= end < |heap| == |old(heap)| && heap[end] == old(heap[start])
      ensures OrderedAbove(heap, end)
      ensures end != start || old(BelowOk(heap, start)) ==> Ordered(heap)
    {
      var item := heap[start];
      var idx := start;
      ghost var h, ps := heap, pos;   // the heap with `item` put back in the gap
      while idx > 0
        invariant 0 <= idx < |heap| == |h| == old(|heap|) && |pos| == |ps|
        invariant Linked(h, ps) && MapOf(h, ps) == old(MapOf(heap, pos))
        invariant 0 <= item.id < |pos|
        invariant h[idx] == item && heap[idx := item] == h && pos[item.id := idx] == ps
        invariant OrderedAround(h, idx)
        invariant idx != start || old(BelowOk(heap, start)) ==> BelowOk(h, idx)
        invariant idx == start ==> h == old(heap)
      {
        var parent := Parent(idx);
        if Le(heap[parent], item) {
          break;
        }
        SwapLinked(h, ps, idx, parent);
        SwapUp(h, idx);
        h, ps := Swapped(h, idx, parent), ps[h[parent].id := idx][item.id := parent];
        pos := pos[heap[parent].id := idx];
        heap := heap[idx := heap[parent]];
        idx := parent;
      }
      pos := pos[item.id := idx];
      heap := heap[idx := item];
      end := idx;
      if end != start || old(BelowOk(heap, start)) {
        AllInOrder(heap, end);
      }
    }

    method LeastChild(idx: int) returns (best: int)
      requires 0 <= idx && 4 * idx + 1 < |heap|
      ensures BestChild(heap, idx, best)
    {
      var first := 4 * idx + 1;
      best := first;
      var child := first + 1;
      while child < first + 4 && child < |heap|
        invariant first <= best < child <= first + 4 && best < |heap| && child <= |heap|
        invariant forall j :: first <= j < child ==> Le(heap[best], heap[j])
      {
        if !Le(heap[best], heap[child]) {
          best := child;
        }
        child := child + 1;
      }
    }

    method SiftDown(start: int)
      requires 0 <= start < |heap| && Linked(heap, pos) && OrderedAbove(heap, start)
      modifies this
      ensures Valid() && Contents() == old(MapOf(heap, pos))
    {
      hide Linked, MapOf, Ordered, OrderedAround, BelowOk, InOrder, Le;
      LinkedAt(heap, pos, heap[start].id);
      var item := heap[start];
      var len := |heap|;
      var idx := start;
      ghost var h, ps := heap, pos;   // the heap with `item` put back in the gap
      while true
        invariant 0 <= idx < |heap| == |h| == len && |pos| == |ps|
        invariant Linked(h, ps) && MapOf(h, ps) == old(MapOf(heap, pos))
        invariant 0 <= item.id < |pos|
        invariant h[idx] == item && heap[idx := item] == h && pos[item.id := idx] == ps
        invariant OrderedAbove(h, idx)
        decreases len - idx
      {
        var first := 4 * idx + 1;
        if first >= len {
          BelowSettled(h, heap, idx, 0);
          break;
        }
        var best := LeastChild(idx);
        BelowSettled(h, heap, idx, best);
        if Le(item, heap[best]) {
          break;
        }
        LinkedAt(h, ps, item.id);
        SwapLinked(h, ps, idx, best);
        SwapDown(h, idx, best);
        h, ps := Swapped(h, idx, best), ps[h[best].id := idx][item.id := best];
        pos := pos[heap[best].id := idx];
        heap := heap[idx := heap[best]];
        idx := best;
      }
      pos := pos[item.id := idx];
      heap := heap[idx := item];
      AllInOrder(heap, idx);
    }

    predicate Contains(drv: int)
      reads this
      requires Valid()
      ensures Contains(drv) <==> drv in Contents()
    {
      0 <= drv < |pos| && pos[drv] != NPOS
    }

    method Size() returns (n: int)
      requires Valid()
      ensures n == 0 <==> Contents() == map[]
    {
      n := |heap|;
      if n > 0 {
        assert heap[0].id in Contents();
      }
    }

    /** The least (key, id) pair. */
    method Top() returns (top: Item)
      requires Valid() && Contents() != map[]
      ensures top.id in Contents() && Contents()[top.id] == top.key
      ensures forall d :: d in Contents() ==> Le(top, Item(Contents()[d], d))
    {
      ghost var some :| some in Contents();
      top := heap[0];
      forall d | d in Contents()
        ensures Le(top, Item(Contents()[d], d))
      {
        RootLeast(heap, pos[d]);
      }
    }

    method Set(drv: int, key: real)
      requires Valid() && drv >= 0
      modifies this
      ensures Valid() && Contents() == old(Contents())[drv := key]
    {
      hide Linked, MapOf, Ordered, OrderedAround, BelowOk, InOrder, Le;
      if drv >= |pos| {
        GrowLinked(heap, pos, drv + 1 - |pos|);
        pos := pos + seq(drv + 1 - |pos|, _ => NPOS);
      }
      SetLinked(heap, pos, Item(key, drv));
      if pos[drv] == NPOS {
        AppendAround(heap, Item(key, drv));
        pos := pos[drv := |heap|];
        heap := heap + [Item(key, drv)];
        var _ := SiftUp(|heap| - 1);
        return;
      }
      var idx := pos[drv];
      LinkedAt(heap, pos, drv);
      var was := heap[idx].key;
      ReplaceAround(heap, idx, Item(key, drv));
      KeyOrder(heap[idx], Item(key, drv));
      heap := heap[idx := Item(key, drv)];
      if key < was {
        var _ := SiftUp(idx);
      } else {
        SiftDown(idx);
      }
    }

    method Erase(drv: int)
      requires Valid()
      modifies this
      ensures Valid() && Contents() == old(Contents()) - {drv}
    {
      if !Contains(drv) {
        return;
      }
      hide Linked, MapOf, Ordered, OrderedAround, BelowOk, InOrder, Le;
      var idx := pos[drv];
      LinkedAt(heap, pos, drv);
      EraseLinked(heap, pos, drv);
      DropLast(heap);
      pos := pos[drv := NPOS];
      var last := heap[|heap| - 1];
      heap := heap[..|heap| - 1];
      if idx >= |heap| {
        return;
      }
      ReplaceAround(heap, idx, last);
      pos := pos[last.id := idx];
      heap := heap[idx := last];
      var end := SiftUp(idx);
      LinkedAt(heap, pos, last.id);
      SiftDown(pos[last.id]);
    }
  }
}
