/** The split itself: which paths each connection fetches (src/client/nar-fetcher.hh). */
module NarFetcher {
  import opened NarSplit

  function SizesOf(paths: seq<Path>, size: Sizes): seq<nat> {
    seq(|paths|, i requires 0 <= i < |paths| => size(paths[i]))
  }

  function GroupLoad(group: seq<Path>, size: Sizes): nat {
    if group == [] then 0 else GroupLoad(group[..|group| - 1], size) + size(group[|group| - 1])
  }

  /** All paths of all groups. */
  function Pooled(groups: seq<seq<Path>>): multiset<Path> {
    if groups == [] then multiset{} else Pooled(groups[..|groups| - 1]) + multiset(groups[|groups| - 1])
  }

  // ------------------------------------------------------- sorting

  ghost predicate LargestFirst(paths: seq<Path>, size: Sizes) {
    forall i, j :: 0 <= i <= j < |paths| ==> size(paths[i]) >= size(paths[j])
  }

  function Insert(p: Path, sorted: seq<Path>, size: Sizes): seq<Path> {
    if sorted == [] || size(p) >= size(sorted[0]) then [p] + sorted
    else [sorted[0]] + Insert(p, sorted[1..], size)
  }

  /** Larger paths first, equal ones in their order. */
  function Sorted(paths: seq<Path>, size: Sizes): seq<Path> {
    if paths == [] then [] else Insert(paths[0], Sorted(paths[1..], size), size)
  }

  lemma Cons(p: Path, rest: seq<Path>, size: Sizes)
    requires LargestFirst(rest, size) && forall x :: x in rest ==> size(p) >= size(x)
    ensures LargestFirst([p] + rest, size)
  {
  }

  lemma {:induction false} InsertSorts(p: Path, sorted: seq<Path>, size: Sizes)
    requires LargestFirst(sorted, size)
    ensures multiset(Insert(p, sorted, size)) == multiset{p} + multiset(sorted)
    ensures LargestFirst(Insert(p, sorted, size), size)
    decreases |sorted|
  {
    if sorted == [] || size(p) >= size(sorted[0]) {
      Cons(p, sorted, size);
    } else {
      var rest := Insert(p, sorted[1..], size);
      InsertSorts(p, sorted[1..], size);
      assert sorted == [sorted[0]] + sorted[1..];
      forall x | x in rest
        ensures size(sorted[0]) >= size(x)
      {
        assert x in multiset(rest);
      }
      Cons(sorted[0], rest, size);
    }
  }

  lemma {:induction false} SortedSorts(paths: seq<Path>, size: Sizes)
    ensures multiset(Sorted(paths, size)) == multiset(paths) && LargestFirst(Sorted(paths, size), size)
  {
    if paths != [] {
      SortedSorts(paths[1..], size);
      InsertSorts(paths[0], Sorted(paths[1..], size), size);
      assert paths == [paths[0]] + paths[1..];
    }
  }

  /** The paths of one size, in their order. */
  function OfSize(paths: seq<Path>, size: Sizes, n: nat): seq<Path> {
    if paths == [] then []
    else (if size(paths[0]) == n then [paths[0]] else []) + OfSize(paths[1..], size, n)
  }

  lemma {:induction false} InsertStable(p: Path, sorted: seq<Path>, size: Sizes, n: nat)
    ensures OfSize(Insert(p, sorted, size), size, n) == OfSize([p] + sorted, size, n)
    decreases |sorted|
  {
    assert ([p] + sorted)[1..] == sorted;
    if sorted != [] && size(p) < size(sorted[0]) {
      InsertStable(p, sorted[1..], size, n);
      var rest := Insert(p, sorted[1..], size);
      assert ([sorted[0]] + rest)[1..] == rest;
      assert ([p] + sorted[1..])[1..] == sorted[1..];
    }
  }

  /** Paths of equal size keep their order. */
  lemma {:induction false} SortedStable(paths: seq<Path>, size: Sizes, n: nat)
    ensures OfSize(Sorted(paths, size), size, n) == OfSize(paths, size, n)
  {
    if paths != [] {
      var rest := Sorted(paths[1..], size);
      SortedStable(paths[1..], size, n);
      InsertStable(paths[0], rest, size, n);
      assert ([paths[0]] + rest)[1..] == rest;
    }
  }

  // ------------------------------------------------------- splits as assignments

  /** The group m of an assignment. */
  ghost function Members(a: seq<int>, paths: seq<Path>, m: int): seq<Path>
    requires |a| == |paths|
  {
    if a == [] then []
    else
      var k := |a| - 1;
      Members(a[..k], paths[..k], m) + (if a[k] == m then [paths[k]] else [])
  }

  ghost predicate SplitBy(groups: seq<seq<Path>>, a: seq<int>, paths: seq<Path>) {
    |a| == |paths| && Assigns(a, |groups|) && forall m :: 0 <= m < |groups| ==> groups[m] == Members(a, paths, m)
  }

  lemma {:induction false} MembersLoad(a: seq<int>, paths: seq<Path>, size: Sizes, m: int)
    requires |a| == |paths|
    ensures GroupLoad(Members(a, paths, m), size) == Load(a, SizesOf(paths, size), m)
  {
    if a != [] {
      var k := |a| - 1;
      MembersLoad(a[..k], paths[..k], size, m);
      assert SizesOf(paths, size)[..k] == SizesOf(paths[..k], size);
      var g := Members(a[..k], paths[..k], m);
      assert (g + [paths[k]])[..|g|] == g && g + [] == g;
    }
  }

  lemma {:induction false} PooledUpdate(groups: seq<seq<Path>>, m: nat, group: seq<Path>, more: multiset<Path>)
    requires m < |groups| && multiset(group) == multiset(groups[m]) + more
    ensures Pooled(groups[m := group]) == Pooled(groups) + more
    decreases |groups|
  {
    var k := |groups| - 1;
    if m < k {
      PooledUpdate(groups[..k], m, group, more);
      assert groups[m := group][..k] == groups[..k][m := group];
    } else {
      assert groups[m := group][..k] == groups[..k];
    }
  }

  /** Any split of these paths is an assignment, with the same loads. */
  lemma {:induction false} SplitIsAssignment(split: seq<seq<Path>>, paths: seq<Path>, size: Sizes) returns (b: seq<int>)
    requires Pooled(split) == multiset(paths)
    ensures |b| == |paths| && Assigns(b, |split|)
    ensures forall m :: 0 <= m < |split| ==> Load(b, SizesOf(paths, size), m) == GroupLoad(split[m], size)
    decreases |paths|
  {
    if paths == [] {
      b := [];
      forall m | 0 <= m < |split|
        ensures split[m] == []
      {
        InPool(split, m);
        assert |multiset(split[m])| == 0;
      }
    } else {
      var k := |paths| - 1;
      var m, less := TakeOut(split, paths);
      var front := SplitIsAssignment(less, paths[..k], size);
      TookOut(split, m, less, paths[k], size);
      b := front + [m];
      assert b[..k] == front && SizesOf(paths, size)[..k] == SizesOf(paths[..k], size);
    }
  }

  /** The split without one copy of a path of its group m. */
  ghost predicate Without(split: seq<seq<Path>>, m: nat, less: seq<seq<Path>>, p: Path) {
    && m < |split| == |less| && less == split[m := less[m]]
    && exists i :: 0 <= i < |split[m]| && split[m][i] == p && less[m] == split[m][..i] + split[m][i + 1..]
  }

  lemma TakeOut(split: seq<seq<Path>>, paths: seq<Path>) returns (m: nat, less: seq<seq<Path>>)
    requires paths != [] && Pooled(split) == multiset(paths)
    ensures Without(split, m, less, paths[|paths| - 1]) && Pooled(less) == multiset(paths[..|paths| - 1])
  {
    var k := |paths| - 1;
    assert paths == paths[..k] + [paths[k]];
    var i;
    m, i := FindIn(split, paths[k]);
    var group := split[m][..i] + split[m][i + 1..];
    assert split[m] == split[m][..i] + [split[m][i]] + split[m][i + 1..];
    less := split[m := group];
    assert less[m := split[m]] == split;
    PooledUpdate(less, m, split[m], multiset{paths[k]});
    hide Pooled;
    assert multiset(paths) == multiset(paths[..k]) + multiset{paths[k]};
    Cancel(Pooled(less), multiset(paths[..k]), multiset{paths[k]});
  }

  lemma Cancel(a: multiset<Path>, b: multiset<Path>, c: multiset<Path>)
    requires a + c == b + c
    ensures a == b
  {
    forall x
      ensures a[x] == b[x]
    {
      assert (a + c)[x] == (b + c)[x];
    }
  }

  lemma TookOut(split: seq<seq<Path>>, m: nat, less: seq<seq<Path>>, p: Path, size: Sizes)
    requires Without(split, m, less, p)
    ensures forall x :: 0 <= x < |split| ==>
      GroupLoad(split[x], size) == GroupLoad(less[x], size) + (if x == m then size(p) else 0)
  {
    var i :| 0 <= i < |split[m]| && split[m][i] == p && less[m] == split[m][..i] + split[m][i + 1..];
    LoadWithout(split[m], i, size);
  }

  lemma {:induction false} InPool(split: seq<seq<Path>>, m: nat)
    requires m < |split|
    ensures multiset(split[m]) <= Pooled(split)
    decreases |split|
  {
    if m < |split| - 1 {
      InPool(split[..|split| - 1], m);
    }
  }

  lemma {:induction false} FindIn(split: seq<seq<Path>>, p: Path) returns (m: nat, i: nat)
    requires p in Pooled(split)
    ensures m < |split| && i < |split[m]| && split[m][i] == p
  {
    var k := |split| - 1;
    if p in multiset(split[k]) {
      m := k;
      i :| 0 <= i < |split[k]| && split[k][i] == p;
    } else {
      m, i := FindIn(split[..k], p);
    }
  }

  lemma {:induction false} LoadWithout(group: seq<Path>, i: nat, size: Sizes)
    requires i < |group|
    ensures GroupLoad(group, size) == GroupLoad(group[..i] + group[i + 1..], size) + size(group[i])
    decreases |group|
  {
    var k := |group| - 1;
    var less := group[..i] + group[i + 1..];
    if i < k {
      LoadWithout(group[..k], i, size);
      assert group[..k][..i] + group[..k][i + 1..] == less[..|less| - 1];
    } else {
      assert less == group[..k];
    }
  }

  // ------------------------------------------------------- the split

  method LeastLoaded(load: seq<nat>) returns (least: nat)
    requires load != []
    ensures least < |load| && forall m :: 0 <= m < |load| ==> load[least] <= load[m]
    ensures forall m :: 0 <= m < least ==> load[least] < load[m]
  {
    least := 0;
    for i := 1 to |load|
      invariant least < i && forall m :: 0 <= m < i ==> load[least] <= load[m]
      invariant forall m :: 0 <= m < least ==> load[least] < load[m]
    {
      if load[i] < load[least] {
        least := i;
      }
    }
  }

  /** Largest first, each path to the group with the least so far. */
  ghost predicate FairSplit(groups: seq<seq<Path>>, paths: seq<Path>, size: Sizes) {
    exists a :: SplitBy(groups, a, Sorted(paths, size)) && Greedy(a, SizesOf(Sorted(paths, size), size), |groups|)
  }

  /** Groups and loads after the paths placed so far. */
  ghost predicate Placed(groups: seq<seq<Path>>, load: seq<nat>, a: seq<int>, paths: seq<Path>, size: Sizes) {
    && |load| == |groups| && SplitBy(groups, a, paths) && Greedy(a, SizesOf(paths, size), |groups|)
    && forall m :: 0 <= m < |groups| ==> load[m] == Load(a, SizesOf(paths, size), m)
  }

  method Split(pending: seq<Path>, size: Sizes, connections: nat) returns (groups: seq<seq<Path>>)
    requires connections > 0
    ensures |groups| == connections && FairSplit(groups, pending, size) && Pooled(groups) == multiset(pending)
  {
    hide Placed, Pooled, Greedy;
    var sorted := Sorted(pending, size);
    SortedSorts(pending, size);
    groups := seq(connections, _ => []);
    var load: seq<nat> := seq(connections, _ => 0);
    ghost var a := [];
    NothingPlaced(groups, load, size);
    for i := 0 to |sorted|
      invariant |groups| == |load| == connections
      invariant Placed(groups, load, a, sorted[..i], size) && Pooled(groups) == multiset(sorted[..i])
    {
      var least := LeastLoaded(load);
      assert sorted[..i + 1] == sorted[..i] + [sorted[i]];
      PlaceOne(groups, load, a, sorted[..i], size, sorted[i], least);
      PooledUpdate(groups, least, groups[least] + [sorted[i]], multiset{sorted[i]});
      groups := groups[least := groups[least] + [sorted[i]]];
      load := load[least := load[least] + size(sorted[i])];
      a := a + [least];
    }
    assert sorted[..|sorted|] == sorted;
    PlacedIsFair(groups, load, a, pending, size);
  }

  lemma NothingPlaced(groups: seq<seq<Path>>, load: seq<nat>, size: Sizes)
    requires |groups| == |load| && forall m :: 0 <= m < |groups| ==> groups[m] == [] && load[m] == 0
    ensures Placed(groups, load, [], [], size) && Pooled(groups) == multiset{}
    decreases |groups|
  {
    if groups != [] {
      NothingPlaced(groups[..|groups| - 1], load[..|groups| - 1], size);
    }
  }

  lemma PlaceOne(groups: seq<seq<Path>>, load: seq<nat>, a: seq<int>, paths: seq<Path>, size: Sizes, p: Path,
                 least: nat)
    requires Placed(groups, load, a, paths, size) && least < |load|
    requires forall m :: 0 <= m < |load| ==> load[least] <= load[m]
    ensures Placed(groups[least := groups[least] + [p]], load[least := load[least] + size(p)],
                   a + [least], paths + [p], size)
  {
    var s, s', a' := SizesOf(paths, size), SizesOf(paths + [p], size), a + [least];
    assert a'[..|a|] == a && (paths + [p])[..|a|] == paths && s'[..|a|] == s;
    forall j | 0 <= j < |a'|
      ensures LeastAt(a', s', |groups|, j)
    {
      if j < |a| {
        assert LeastAt(a, s, |groups|, j);
        assert a'[..j] == a[..j] && s'[..j] == s[..j];
      }
    }
  }

  lemma PlacedIsFair(groups: seq<seq<Path>>, load: seq<nat>, a: seq<int>, paths: seq<Path>, size: Sizes)
    requires Placed(groups, load, a, Sorted(paths, size), size)
    ensures FairSplit(groups, paths, size)
  {
  }

  /** The heaviest group of a fair split, against any other split of the same paths. */
  lemma FairIsNearBest(groups: seq<seq<Path>>, paths: seq<Path>, size: Sizes, other: seq<seq<Path>>, t: nat, m: int)
    requires FairSplit(groups, paths, size) && |other| == |groups| && Pooled(other) == multiset(paths)
    requires 0 <= m < |groups|
    requires forall x :: 0 <= x < |other| ==> GroupLoad(other[x], size) <= t
    ensures |groups| * GroupLoad(groups[m], size) <= (2 * |groups| - 1) * t
    ensures 3 * (|groups| * GroupLoad(groups[m], size)) <= (4 * |groups| - 1) * t
  {
    hide Pooled, Greedy, Sorted, SizesOf, GroupLoad, Members;
    var sorted := Sorted(paths, size);
    SortedFalls(paths, size);
    var a :| SplitBy(groups, a, sorted) && Greedy(a, SizesOf(sorted, size), |groups|);
    var b := SplitIsAssignment(other, sorted, size);
    MembersLoad(a, sorted, size, m);
    NearBest(a, b, SizesOf(sorted, size), |groups|, t, m);
  }

  lemma SortedFalls(paths: seq<Path>, size: Sizes)
    ensures multiset(Sorted(paths, size)) == multiset(paths) && Falling(SizesOf(Sorted(paths, size), size))
    ensures |SizesOf(Sorted(paths, size), size)| == |Sorted(paths, size)|
  {
    SortedSorts(paths, size);
  }

  lemma NearBest(a: seq<int>, b: seq<int>, s: seq<nat>, n: nat, t: nat, m: int)
    requires n > 0 && Greedy(a, s, n) && Falling(s) && |b| == |s| && Assigns(b, n) && 0 <= m < n
    requires forall x :: 0 <= x < n ==> Load(b, s, x) <= t
    ensures n * Load(a, s, m) <= (2 * n - 1) * t && 3 * (n * Load(a, s, m)) <= (4 * n - 1) * t
  {
    assert Fits(b, s, n, t);
    NarSplit.TwiceBest(a, b, s, n, t, m);
    NarSplit.LargestFirst(a, b, s, n, t, m);
  }

  /** N * load <= total + (N - 1) * largest. */
  lemma FairIsNearAverage(groups: seq<seq<Path>>, paths: seq<Path>, size: Sizes, largest: nat, m: int)
    requires FairSplit(groups, paths, size) && 0 <= m < |groups| && forall p :: p in paths ==> size(p) <= largest
    ensures |groups| * GroupLoad(groups[m], size) <= GroupLoad(paths, size) + (|groups| - 1) * largest
  {
    var sorted := Sorted(paths, size);
    SortedSorts(paths, size);
    var a :| SplitBy(groups, a, sorted) && Greedy(a, SizesOf(sorted, size), |groups|);
    var s := SizesOf(sorted, size);
    MembersLoad(a, sorted, size, m);
    forall i | 0 <= i < |s|
      ensures s[i] <= largest
    {
      assert sorted[i] in multiset(sorted);
    }
    GreedyBound(a, s, |groups|, m, largest);
    SameTotal(sorted, paths, size);
  }

  /** The total does not depend on the order. */
  lemma SameTotal(sorted: seq<Path>, paths: seq<Path>, size: Sizes)
    requires multiset(sorted) == multiset(paths)
    ensures Total(SizesOf(sorted, size)) == GroupLoad(paths, size)
  {
    assert Pooled([paths]) == multiset(sorted);
    var b := SplitIsAssignment([paths], sorted, size);
    LoadsAddUp(b, SizesOf(sorted, size), 1);
    assert SumLoads(b, SizesOf(sorted, size), 1) == Load(b, SizesOf(sorted, size), 0);
  }

  function NonEmpty(groups: seq<seq<Path>>): seq<seq<Path>> {
    if groups == [] then []
    else
      var k := |groups| - 1;
      NonEmpty(groups[..k]) + (if groups[k] == [] then [] else [groups[k]])
  }

  class Fetcher {
    const connections: nat
    var pending: seq<Path>
    var sessions: seq<seq<Path>>   // what each started session fetches

    constructor (connections: nat)
      ensures this.connections > 0 && pending == [] && sessions == []
    {
      this.connections := if connections < 1 then 1 else connections;
      pending, sessions := [], [];
    }

    /** Starts a session for each group that got something. */
    method StartPending(size: Sizes) returns (groups: seq<seq<Path>>)
      requires connections > 0
      modifies this
      ensures pending == [] && |groups| == connections && FairSplit(groups, old(pending), size)
      ensures sessions == old(sessions) + NonEmpty(groups)
      ensures Pooled(sessions) == Pooled(old(sessions)) + multiset(old(pending))
    {
      hide FairSplit, Pooled, NonEmpty;
      groups := Split(pending, size, connections);
      PooledMore([], []);
      NonEmptyMore([], []);
      assert groups[..0] == [];
      for i := 0 to |groups|
        invariant Pooled(sessions) == Pooled(old(sessions)) + Pooled(groups[..i])
        invariant sessions == old(sessions) + NonEmpty(groups[..i])
      {
        assert groups[..i + 1] == groups[..i] + [groups[i]];
        PooledMore(groups[..i], groups[i]);
        NonEmptyMore(groups[..i], groups[i]);
        if groups[i] != [] {
          PooledMore(sessions, groups[i]);
          sessions := sessions + [groups[i]];
        }
      }
      assert groups[..|groups|] == groups;
      pending := [];
    }
  }

  lemma NonEmptyMore(groups: seq<seq<Path>>, group: seq<Path>)
    ensures NonEmpty([]) == []
    ensures NonEmpty(groups + [group]) == if group == [] then NonEmpty(groups) else NonEmpty(groups) + [group]
  {
    assert (groups + [group])[..|groups|] == groups;
  }

  lemma PooledMore(groups: seq<seq<Path>>, group: seq<Path>)
    ensures Pooled(groups + [group]) == Pooled(groups) + multiset(group) && Pooled([]) == multiset{}
  {
  }
}
