/**
 * How much each worker has free (src/daemon/scheduler.hh, class FreeIndex):
 * buckets with swap-remove and a mask of the non-empty ones, proved to
 * implement a finite map from worker to free slots.
 */
module Buckets {

  const MAX_SLOTS: int := 63
  const BUCKETS: int := MAX_SLOTS + 1

  function Clamp(val: int): (r: int)
    ensures 0 <= r <= MAX_SLOTS
  {
    if val < 0 then 0 else if val > MAX_SLOTS then MAX_SLOTS else val
  }

  ghost predicate Known(free: seq<int>, tracked: seq<bool>, w: int)
    requires |tracked| == |free|
  {
    0 <= w < |free| && tracked[w]
  }

  /** Each tracked worker sits once, at pos, in the bucket of its count, and nowhere else. */
  ghost predicate BucketsOk(free: seq<int>, pos: seq<int>, tracked: seq<bool>, byFree: seq<seq<int>>) {
    && |free| == |pos| == |tracked| && |byFree| == BUCKETS
    && (forall w :: 0 <= w < |free| && tracked[w] ==>
        0 <= pos[w] < |byFree[Clamp(free[w])]| && byFree[Clamp(free[w])][pos[w]] == w)
    && (forall b, i :: 0 <= b < BUCKETS && 0 <= i < |byFree[b]| ==>
        Known(free, tracked, byFree[b][i]) && Clamp(free[byFree[b][i]]) == b && pos[byFree[b][i]] == i)
    && (forall w :: 0 <= w < |free| && !tracked[w] ==> free[w] == 0)
  }

  ghost predicate MaskOk(byFree: seq<seq<int>>, nonempty: seq<bool>) {
    |byFree| == |nonempty| == BUCKETS && forall b :: 0 <= b < BUCKETS ==> (nonempty[b] <==> byFree[b] != [])
  }

  /** `w` leaves its bucket: the bucket's last element moves into its place. */
  lemma RemoveOk(free: seq<int>, pos: seq<int>, tracked: seq<bool>, byFree: seq<seq<int>>, w: int)
    requires BucketsOk(free, pos, tracked, byFree) && Known(free, tracked, w)
    ensures
      var src, idx := byFree[Clamp(free[w])], pos[w];
      var last := src[|src| - 1];
      && 0 <= last < |pos|
      && BucketsOk(free[w := 0], pos[last := idx], tracked[w := false],
                   byFree[Clamp(free[w]) := src[idx := last][..|src| - 1]])
  {
  }

  lemma InsertOk(free: seq<int>, pos: seq<int>, tracked: seq<bool>, byFree: seq<seq<int>>, w: int, val: int)
    requires BucketsOk(free, pos, tracked, byFree) && 0 <= w < |free| && !tracked[w]
    ensures var dest := byFree[Clamp(val)];
      BucketsOk(free[w := val], pos[w := |dest|], tracked[w := true], byFree[Clamp(val) := dest + [w]])
  {
  }

  lemma MoveOk(free: seq<int>, pos: seq<int>, tracked: seq<bool>, byFree: seq<seq<int>>, w: int, val: int)
    requires BucketsOk(free, pos, tracked, byFree) && Known(free, tracked, w)
    ensures
      var src, idx := byFree[Clamp(free[w])], pos[w];
      var last := src[|src| - 1];
      var byFree' := byFree[Clamp(free[w]) := src[idx := last][..|src| - 1]];
      var dest := byFree'[Clamp(val)];
      && 0 <= last < |pos|
      && BucketsOk(free[w := val], pos[last := idx][w := |dest|], tracked, byFree'[Clamp(val) := dest + [w]])
  {
    var src := byFree[Clamp(free[w])];
    var last := src[|src| - 1];
    var byFree' := byFree[Clamp(free[w]) := src[pos[w] := last][..|src| - 1]];
    RemoveOk(free, pos, tracked, byFree, w);
    hide BucketsOk;
    InsertOk(free[w := 0], pos[last := pos[w]], tracked[w := false], byFree', w, val);
    assert free[w := 0][w := val] == free[w := val] && tracked[w := false][w := true] == tracked;
  }

  lemma GrowOk(free: seq<int>, pos: seq<int>, tracked: seq<bool>, byFree: seq<seq<int>>, n: nat)
    requires BucketsOk(free, pos, tracked, byFree)
    ensures BucketsOk(free + seq(n, _ => 0), pos + seq(n, _ => 0), tracked + seq(n, _ => false), byFree)
  {
  }
}

module FreeIndexes {
  import opened Lists
  import opened Buckets

  class FreeIndex {
    var free: seq<int>
    var pos: seq<int>
    var tracked: seq<bool>
    var byFree: seq<seq<int>>
    var nonempty: seq<bool>   // bit b: bucket b holds someone
    ghost const owner: string   // the system it counts for

    ghost predicate Valid()
      reads this
    {
      BucketsOk(free, pos, tracked, byFree) && MaskOk(byFree, nonempty)
    }

    ghost function Contents(): map<int, int>
      reads this
      requires Valid()
    {
      map w | 0 <= w < |free| && tracked[w] :: free[w]
    }

    constructor (ghost owner: string)
      ensures Valid() && Contents() == map[] && this.owner == owner
    {
      this.owner := owner;
      free, pos, tracked := [], [], [];
      byFree := seq(BUCKETS, _ => []);
      nonempty := seq(BUCKETS, _ => false);
    }

    /** Adds a worker to the map, with nothing free. */
    method Push(w: int)
      requires Valid() && w >= 0
      modifies this
      ensures Valid()
      ensures Contents() == if w in old(Contents()) then old(Contents()) else old(Contents())[w := 0]
    {
      hide BucketsOk;
      BucketsLengths();
      if w < |free| && tracked[w] {
        return;
      }
      if w >= |free| {
        GrowOk(free, pos, tracked, byFree, w + 1 - |free|);
        free, pos := free + seq(w + 1 - |free|, _ => 0), pos + seq(w + 1 - |pos|, _ => 0);
        tracked := tracked + seq(w + 1 - |tracked|, _ => false);
      }
      InsertOk(free, pos, tracked, byFree, w, 0);
      assert free[w := 0] == free;
      tracked := tracked[w := true];
      pos := pos[w := |byFree[0]|];
      byFree := byFree[0 := byFree[0] + [w]];
      nonempty := nonempty[0 := true];
    }

    lemma BucketsLengths()
      requires Valid()
      ensures |free| == |pos| == |tracked| && |byFree| == |nonempty| == BUCKETS
      ensures forall w :: 0 <= w < |free| && !tracked[w] ==> free[w] == 0
      ensures forall w :: w in Contents() ==>
        0 <= pos[w] < |byFree[Clamp(free[w])]| && byFree[Clamp(free[w])][pos[w]] == w
    {
    }

    /** A worker nobody pushed reads as zero. */
    function Get(w: int): (r: int)
      reads this
      requires Valid() && w >= 0
      ensures r == if w in Contents() then Contents()[w] else 0
    {
      if w < |free| then free[w] else 0
    }

    method Set(w: int, val: int)
      requires Valid() && w in Contents()
      modifies this
      ensures Valid() && Contents() == old(Contents())[w := val]
    {
      hide BucketsOk;
      BucketsLengths();
      var from, dest := Clamp(free[w]), Clamp(val);
      if from == dest {
        SameBucket(val, w);
        free := free[w := val];
        return;
      }
      MoveOk(free, pos, tracked, byFree, w, val);
      free := free[w := val];
      var src := byFree[from];
      var idx := pos[w];
      assert idx < |src| && src[idx] == w;   // the "corrupt bucket" error cannot occur
      var last := src[|src| - 1];
      src := src[idx := last];
      pos := pos[last := idx];
      src := src[..|src| - 1];
      byFree := byFree[from := src];
      if src == [] {
        nonempty := nonempty[from := false];
      }
      pos := pos[w := |byFree[dest]|];
      byFree := byFree[dest := byFree[dest] + [w]];
      nonempty := nonempty[dest := true];
    }

    lemma SameBucket(val: int, w: int)
      requires Valid() && w in Contents() && Clamp(val) == Clamp(free[w])
      ensures BucketsOk(free[w := val], pos, tracked, byFree)
    {
    }

    method MaxFree() returns (top: int)
      requires Valid()
      ensures 0 <= top <= MAX_SLOTS
      ensures forall w :: w in Contents() ==> Clamp(Contents()[w]) <= top
      ensures top > 0 ==> byFree[top] != []
    {
      top := MAX_SLOTS;
      while top > 0 && !nonempty[top]
        invariant 0 <= top <= MAX_SLOTS
        invariant forall b :: top < b <= MAX_SLOTS ==> byFree[b] == []
      {
        top := top - 1;
      }
    }

    /** A worker with the most free slots, if any has one. */
    method Emptiest() returns (w: Option<int>)
      requires Valid()
      ensures w.None? ==> forall v :: v in Contents() ==> Contents()[v] <= 0
      ensures w.Some? ==> w.value in Contents() && Contents()[w.value] > 0
      ensures w.Some? ==> forall v :: v in Contents() ==> Clamp(Contents()[v]) <= Clamp(Contents()[w.value])
    {
      var top := MaxFree();
      if top <= 0 {
        return None;
      }
      return Some(byFree[top][0]);
    }
  }
}
