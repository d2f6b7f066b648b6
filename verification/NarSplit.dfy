/**
 * Paths to fetch, split over connections largest first (startPending in
 * src/client/nar-fetcher.hh), and how far that is from the best split.
 */
module NarSplit {
  type Path = string
  type Sizes = Path -> nat

  // ------------------------------------------------------- assignments of sizes to groups

  /** a[i] is the group of the i-th item. */
  ghost predicate Assigns(a: seq<int>, n: int) {
    forall i :: 0 <= i < |a| ==> 0 <= a[i] < n
  }

  ghost function Load(a: seq<int>, s: seq<nat>, m: int): nat
    requires |a| == |s|
  {
    if a == [] then 0
    else
      var k := |a| - 1;
      Load(a[..k], s[..k], m) + (if a[k] == m then s[k] else 0)
  }

  ghost function Count(a: seq<int>, m: int): nat {
    if a == [] then 0
    else Count(a[..|a| - 1], m) + (if a[|a| - 1] == m then 1 else 0)
  }

  ghost function Total(s: seq<nat>): nat {
    if s == [] then 0 else Total(s[..|s| - 1]) + s[|s| - 1]
  }

  /** No group gets more than t. */
  ghost predicate Fits(a: seq<int>, s: seq<nat>, n: int, t: nat) {
    |a| == |s| && Assigns(a, n) && forall m :: 0 <= m < n ==> Load(a, s, m) <= t
  }

  /** Each item goes to a group with the least load so far. */
  ghost predicate Greedy(a: seq<int>, s: seq<nat>, n: int) {
    && |a| == |s| && Assigns(a, n)
    && forall j :: 0 <= j < |a| ==> LeastAt(a, s, n, j)
  }

  ghost predicate LeastAt(a: seq<int>, s: seq<nat>, n: int, j: int)
    requires |a| == |s| && 0 <= j < |a|
  {
    forall m :: 0 <= m < n ==> Load(a[..j], s[..j], a[j]) <= Load(a[..j], s[..j], m)
  }

  ghost predicate Falling(s: seq<nat>) {
    forall i, j :: 0 <= i <= j < |s| ==> s[i] >= s[j]
  }

  // ------------------------------------------------------- sums over groups

  ghost function SumLoads(a: seq<int>, s: seq<nat>, n: nat): nat
    requires |a| == |s|
  {
    if n == 0 then 0 else SumLoads(a, s, n - 1) + Load(a, s, n - 1)
  }

  ghost function SumCounts(a: seq<int>, n: nat): nat {
    if n == 0 then 0 else SumCounts(a, n - 1) + Count(a, n - 1)
  }

  lemma {:induction false} SumLoadsStep(a: seq<int>, s: seq<nat>, n: nat)
    requires |a| == |s| && a != []
    ensures var k := |a| - 1;
      SumLoads(a, s, n) == SumLoads(a[..k], s[..k], n) + (if 0 <= a[k] < n then s[k] else 0)
  {
    if n > 0 {
      SumLoadsStep(a, s, n - 1);
    }
  }

  lemma {:induction false} LoadsAddUp(a: seq<int>, s: seq<nat>, n: nat)
    requires |a| == |s| && Assigns(a, n)
    ensures SumLoads(a, s, n) == Total(s)
  {
    if a == [] {
      NoLoads(s, n);
    } else {
      LoadsAddUp(a[..|a| - 1], s[..|a| - 1], n);
      SumLoadsStep(a, s, n);
    }
  }

  lemma {:induction false} NoLoads(s: seq<nat>, n: nat)
    requires s == []
    ensures SumLoads([], s, n) == 0
  {
    if n > 0 {
      NoLoads(s, n - 1);
    }
  }

  lemma {:induction false} SumCountsStep(a: seq<int>, n: nat)
    requires a != []
    ensures SumCounts(a, n) == SumCounts(a[..|a| - 1], n) + (if 0 <= a[|a| - 1] < n then 1 else 0)
  {
    if n > 0 {
      SumCountsStep(a, n - 1);
    }
  }

  lemma {:induction false} CountsAddUp(a: seq<int>, n: nat)
    requires Assigns(a, n)
    ensures SumCounts(a, n) == |a|
  {
    if a == [] {
      NoCounts(n);
    } else {
      CountsAddUp(a[..|a| - 1], n);
      SumCountsStep(a, n);
    }
  }

  lemma {:induction false} NoCounts(n: nat)
    ensures SumCounts([], n) == 0
  {
    if n > 0 {
      NoCounts(n - 1);
    }
  }

  // ------------------------------------------------------- prefixes

  lemma {:induction false} LoadPrefix(a: seq<int>, s: seq<nat>, k: nat, m: int)
    requires |a| == |s| && k <= |a|
    ensures Load(a[..k], s[..k], m) <= Load(a, s, m)
    decreases |a|
  {
    if k < |a| {
      LoadPrefix(a[..|a| - 1], s[..|a| - 1], k, m);
      assert a[..|a| - 1][..k] == a[..k] && s[..|a| - 1][..k] == s[..k];
    } else {
      assert a[..k] == a && s[..k] == s;
    }
  }

  lemma {:induction false} TotalPrefix(s: seq<nat>, k: nat)
    requires k <= |s|
    ensures Total(s[..k]) <= Total(s)
    decreases |s|
  {
    if k < |s| {
      TotalPrefix(s[..|s| - 1], k);
      assert s[..|s| - 1][..k] == s[..k];
    } else {
      assert s[..k] == s;
    }
  }

  /** The last item of a group with a load: without it and what follows, the group has the rest. */
  lemma {:induction false} LastOf(a: seq<int>, s: seq<nat>, m: int) returns (j: nat)
    requires |a| == |s| && Load(a, s, m) > 0
    ensures j < |a| && a[j] == m && Load(a, s, m) == Load(a[..j], s[..j], m) + s[j]
    decreases |a|
  {
    var k := |a| - 1;
    if a[k] == m {
      j := k;
    } else {
      j := LastOf(a[..k], s[..k], m);
      assert a[..k][..j] == a[..j] && s[..k][..j] == s[..j];
    }
  }

  // ------------------------------------------------------- any order: at most twice the best

  /** With N groups: N * load <= total + (N - 1) * largest. */
  lemma GreedyBound(a: seq<int>, s: seq<nat>, n: nat, m: int, largest: nat)
    requires n > 0 && Greedy(a, s, n) && 0 <= m < n && forall i :: 0 <= i < |s| ==> s[i] <= largest
    ensures n * Load(a, s, m) <= Total(s) + (n - 1) * largest
  {
    if Load(a, s, m) > 0 {
      var j := LastOf(a, s, m);
      AtPlacement(a, s, n, j);
      TotalPrefix(s, j + 1);
      TotalStep(s, j);
      hide Load, Total, Greedy;
      PlacedBound(n, Load(a, s, m), Load(a[..j], s[..j], m), s[j], Total(s[..j]), largest);
    } else {
      Times(n - 1, 0, largest);
    }
  }

  lemma GreedyLength(a: seq<int>, s: seq<nat>, n: nat)
    requires Greedy(a, s, n)
    ensures |a| == |s| && Assigns(a, n)
  {
  }

  lemma TotalStep(s: seq<nat>, j: nat)
    requires j < |s|
    ensures Total(s[..j + 1]) == Total(s[..j]) + s[j]
  {
    assert s[..j + 1][..j] == s[..j];
  }

  lemma Times(n: nat, x: nat, y: nat)
    requires x <= y
    ensures n * x <= n * y
  {
  }

  lemma PlacedBound(n: nat, load: nat, before: nat, p: nat, sum: nat, largest: nat)
    requires n > 0 && load == before + p && n * before <= sum && p <= largest
    ensures n * load <= sum + p + (n - 1) * largest
  {
    assert n * load == n * before + p + (n - 1) * p;
    Times(n - 1, p, largest);
  }

  /** When item j was placed its group had at most the average load. */
  lemma AtPlacement(a: seq<int>, s: seq<nat>, n: nat, j: nat)
    requires n > 0 && Greedy(a, s, n) && j < |a|
    ensures n * Load(a[..j], s[..j], a[j]) <= Total(s[..j])
  {
    var low := Load(a[..j], s[..j], a[j]);
    assert LeastAt(a, s, n, j);
    LoadsAddUp(a[..j], s[..j], n);
    AverageLow(a[..j], s[..j], n, low);
  }

  lemma {:induction false} AverageLow(a: seq<int>, s: seq<nat>, n: nat, low: nat)
    requires |a| == |s| && forall m :: 0 <= m < n ==> low <= Load(a, s, m)
    ensures n * low <= SumLoads(a, s, n)
  {
    if n > 0 {
      AverageLow(a, s, n - 1, low);
    }
  }

  lemma {:induction false} AverageHigh(a: seq<int>, s: seq<nat>, n: nat, high: nat)
    requires |a| == |s| && forall m :: 0 <= m < n ==> Load(a, s, m) <= high
    ensures SumLoads(a, s, n) <= n * high
  {
    if n > 0 {
      AverageHigh(a, s, n - 1, high);
      assert n * high == (n - 1) * high + high;
    }
  }

  /** No split is better than the average or the largest item. */
  lemma {:induction false} ItemInLoad(a: seq<int>, s: seq<nat>, i: nat)
    requires |a| == |s| && i < |a|
    ensures s[i] <= Load(a, s, a[i])
    decreases |a|
  {
    var k := |a| - 1;
    if i < k {
      ItemInLoad(a[..k], s[..k], i);
    }
  }

  lemma BestIsAverage(b: seq<int>, s: seq<nat>, n: nat, t: nat)
    requires Fits(b, s, n, t)
    ensures Total(s) <= n * t && forall i :: 0 <= i < |s| ==> s[i] <= t
  {
    LoadsAddUp(b, s, n);
    AverageHigh(b, s, n, t);
    forall i | 0 <= i < |s|
      ensures s[i] <= t
    {
      ItemInLoad(b, s, i);
      assert Load(b, s, b[i]) <= t;
    }
  }

  /** At most 2 - 1/N times the best. */
  lemma TwiceBest(a: seq<int>, b: seq<int>, s: seq<nat>, n: nat, t: nat, m: int)
    requires n > 0 && Greedy(a, s, n) && Fits(b, s, n, t) && 0 <= m < n
    ensures n * Load(a, s, m) <= (2 * n - 1) * t
  {
    hide Load, Total, Greedy, Fits;
    GreedyLength(a, s, n);
    BestIsAverage(b, s, n, t);
    GreedyBound(a, s, n, m, t);
    TwiceArith(n, n * Load(a, s, m), Total(s), t);
  }

  lemma TwiceArith(n: nat, scaled: nat, total: nat, t: nat)
    requires n > 0 && scaled <= total + (n - 1) * t && total <= n * t
    ensures scaled <= (2 * n - 1) * t
  {
  }

  // ------------------------------------------------------- largest first: at most 4/3 - 1/(3N)

  /** Load and count of a group whose items are all at least p. */
  lemma {:induction false} CountLoad(a: seq<int>, s: seq<nat>, m: int, p: nat)
    requires |a| == |s| && forall i :: 0 <= i < |s| ==> s[i] >= p
    ensures Count(a, m) * p <= Load(a, s, m)
    ensures Count(a, m) == 0 ==> Load(a, s, m) == 0
  {
    if a != [] {
      var k := |a| - 1;
      CountLoad(a[..k], s[..k], m, p);
      assert Count(a, m) * p == Count(a[..k], m) * p + (if a[k] == m then p else 0) by {
        if a[k] == m {
          assert Count(a, m) == Count(a[..k], m) + 1;
        }
      }
    }
  }

  lemma {:induction false} CountLoadBut(a: seq<int>, s: seq<nat>, i: nat, p: nat)
    requires |a| == |s| && i < |a| && forall k :: 0 <= k < |s| ==> s[k] >= p
    ensures Count(a, a[i]) > 0 && (Count(a, a[i]) >= 2 ==> s[i] + p <= Load(a, s, a[i]))
    decreases |a|
  {
    var k := |a| - 1;
    if i < k {
      CountLoadBut(a[..k], s[..k], i, p);
      ItemInLoad(a[..k], s[..k], i);
    } else {
      CountLoad(a[..k], s[..k], a[i], p);
      if Count(a, a[i]) >= 2 {
        assert Count(a[..k], a[i]) >= 1;
        Times(p, 1, Count(a[..k], a[i]));
      }
    }
  }

  /** The one item of a group with one. */
  lemma {:induction false} OnlyItem(a: seq<int>, s: seq<nat>, m: int) returns (i: nat)
    requires |a| == |s| && Count(a, m) == 1
    ensures i < |a| && a[i] == m && s[i] == Load(a, s, m)
    decreases |a|
  {
    var k := |a| - 1;
    if a[k] == m {
      i := k;
      NoneThere(a[..k], s[..k], m);
    } else {
      i := OnlyItem(a[..k], s[..k], m);
    }
  }

  lemma {:induction false} NoneThere(a: seq<int>, s: seq<nat>, m: int)
    requires |a| == |s| && Count(a, m) == 0
    ensures Load(a, s, m) == 0
  {
    if a != [] {
      NoneThere(a[..|a| - 1], s[..|a| - 1], m);
    }
  }

  lemma {:induction false} TwoThere(a: seq<int>, i: nat, k: nat)
    requires i < k < |a| && a[i] == a[k]
    ensures Count(a, a[i]) >= 2
    decreases |a|
  {
    var n := |a| - 1;
    if k < n {
      TwoThere(a[..n], i, k);
    } else {
      OneThere(a[..n], i);
    }
  }

  lemma {:induction false} OneThere(a: seq<int>, i: nat)
    requires i < |a|
    ensures Count(a, a[i]) >= 1
    decreases |a|
  {
    if i < |a| - 1 {
      OneThere(a[..|a| - 1], i);
    }
  }

  /** Groups with exactly one item. */
  ghost function Ones(a: seq<int>, n: nat): set<int> {
    if n == 0 then {} else Ones(a, n - 1) + (if Count(a, n - 1) == 1 then {n - 1} else {})
  }

  lemma {:induction false} OnesAre(a: seq<int>, n: nat)
    ensures forall m :: m in Ones(a, n) <==> 0 <= m < n && Count(a, m) == 1
  {
    if n > 0 {
      OnesAre(a, n - 1);
    }
  }

  lemma {:induction false} CountsLow(a: seq<int>, n: nat)
    requires forall m :: 0 <= m < n ==> Count(a, m) >= 1
    ensures SumCounts(a, n) >= 2 * n - |Ones(a, n)|
  {
    if n > 0 {
      CountsLow(a, n - 1);
      OnesAre(a, n - 1);
    }
  }

  lemma {:induction false} CountsHigh(a: seq<int>, n: nat)
    requires forall m :: 0 <= m < n ==> Count(a, m) <= 2
    ensures SumCounts(a, n) <= 2 * n - |Ones(a, n)|
  {
    if n > 0 {
      CountsHigh(a, n - 1);
      OnesAre(a, n - 1);
    }
  }

  /** Items larger than a third of t: every group of a is too full for one more, b has room for
      one more than a. An item alone in a is then alone in b. */
  ghost predicate Tight(a: seq<int>, b: seq<int>, s: seq<nat>, n: nat, t: nat, p: nat) {
    && |b| == |s| == |a| + 1 && Assigns(a, n) && Fits(b, s, n, t)
    && 3 * p > t && (forall i :: 0 <= i < |s| ==> s[i] >= p)
    && (forall m :: 0 <= m < n ==> Load(a, s[..|a|], m) + p > t)
  }

  lemma AloneToo(a: seq<int>, b: seq<int>, s: seq<nat>, n: nat, t: nat, p: nat, m: int) returns (i: nat)
    requires Tight(a, b, s, n, t, p) && 0 <= m < n && Count(a, m) == 1
    ensures i < |a| && a[i] == m && Count(b, b[i]) == 1 && 0 <= b[i] < n
  {
    i := OnlyItem(a, s[..|a|], m);
    assert s[i] + p > t;
    CountLoadBut(b, s, i, p);
    assert Load(b, s, b[i]) <= t;
  }

  /** `image` are the groups of b that the lone items of a's first k groups are in. */
  ghost predicate ImageOk(a: seq<int>, b: seq<int>, n: nat, k: nat, image: set<int>) {
    && image <= Ones(b, n) && |image| == |Ones(a, k)|
    && forall x :: x in image ==> FromBelow(a, b, k, x)
  }

  ghost predicate FromBelow(a: seq<int>, b: seq<int>, k: nat, x: int) {
    exists i :: 0 <= i < |a| && i < |b| && 0 <= a[i] < k && b[i] == x
  }

  lemma {:induction false} LoneItems(a: seq<int>, b: seq<int>, s: seq<nat>, n: nat, t: nat, p: nat, k: nat)
    returns (image: set<int>)
    requires Tight(a, b, s, n, t, p) && k <= n
    ensures ImageOk(a, b, n, k, image)
  {
    hide Tight, Count, Ones, FromBelow, ImageOk;
    if k == 0 {
      image := {};
      NoImage(a, b, n);
    } else {
      image := LoneItems(a, b, s, n, t, p, k - 1);
      if Count(a, k - 1) == 1 {
        var i := AloneToo(a, b, s, n, t, p, k - 1);
        TightLengths(a, b, s, n, t, p);
        ImageGrows(a, b, n, k, image, i);
        image := image + {b[i]};
      } else {
        ImageStays(a, b, n, k, image);
      }
    }
  }

  lemma NoImage(a: seq<int>, b: seq<int>, n: nat)
    ensures ImageOk(a, b, n, 0, {})
  {
  }

  lemma ImageStays(a: seq<int>, b: seq<int>, n: nat, k: nat, image: set<int>)
    requires k > 0 && ImageOk(a, b, n, k - 1, image) && Count(a, k - 1) != 1
    ensures ImageOk(a, b, n, k, image)
  {
  }

  lemma ImageGrows(a: seq<int>, b: seq<int>, n: nat, k: nat, image: set<int>, i: nat)
    requires k > 0 && ImageOk(a, b, n, k - 1, image) && Count(a, k - 1) == 1
    requires i < |a| && |b| == |a| + 1 && a[i] == k - 1 && Count(b, b[i]) == 1 && 0 <= b[i] < n
    ensures ImageOk(a, b, n, k, image + {b[i]})
  {
    NewInImage(a, b, n, k, image, i);
    hide Count, Ones, FromBelow;
    OnesStep(a, k);
    FromBelowMore(a, b, k);
    OnesAre(b, n);
    IsFromBelow(a, b, k, i);
    var x := b[i];
    assert |image + {x}| == |image| + 1;
    assert x in Ones(b, n);
  }

  lemma TightLengths(a: seq<int>, b: seq<int>, s: seq<nat>, n: nat, t: nat, p: nat)
    requires Tight(a, b, s, n, t, p)
    ensures |b| == |s| == |a| + 1
  {
  }

  lemma OnesStep(a: seq<int>, k: nat)
    requires k > 0
    ensures |Ones(a, k)| == |Ones(a, k - 1)| + (if Count(a, k - 1) == 1 then 1 else 0)
  {
    OnesAre(a, k - 1);
    hide Count;
    if Count(a, k - 1) == 1 {
      assert Ones(a, k) == Ones(a, k - 1) + {k - 1};
    } else {
      assert Ones(a, k) == Ones(a, k - 1);
    }
  }

  lemma FromBelowMore(a: seq<int>, b: seq<int>, k: nat)
    requires k > 0
    ensures forall x :: FromBelow(a, b, k - 1, x) ==> FromBelow(a, b, k, x)
  {
  }

  lemma IsFromBelow(a: seq<int>, b: seq<int>, k: nat, i: nat)
    requires i < |a| && i < |b| && 0 <= a[i] < k
    ensures FromBelow(a, b, k, b[i])
  {
  }

  lemma NewInImage(a: seq<int>, b: seq<int>, n: nat, k: nat, image: set<int>, i: nat)
    requires k > 0 && ImageOk(a, b, n, k - 1, image) && i < |a| && |b| == |a| + 1 && a[i] == k - 1
    requires Count(b, b[i]) == 1
    ensures b[i] !in image
  {
    if b[i] in image {
      var j :| 0 <= j < |a| && j < |b| && 0 <= a[j] < k - 1 && b[j] == b[i];
      TwoThere(b, if i < j then i else j, if i < j then j else i);
    }
  }

  lemma Subset(x: set<int>, y: set<int>)
    requires x <= y
    ensures |x| <= |y|
  {
    assert y == x + (y - x);
  }

  /** Then some group of a has room after all. */
  lemma RoomLeft(a: seq<int>, b: seq<int>, s: seq<nat>, n: nat, t: nat, p: nat)
    requires |b| == |s| == |a| + 1 && Assigns(a, n) && Fits(b, s, n, t) && 3 * p > t
    requires forall i :: 0 <= i < |s| ==> s[i] >= p
    ensures exists m :: 0 <= m < n && Load(a, s[..|a|], m) + p <= t
  {
    if Tight(a, b, s, n, t, p) {
      var image := LoneItems(a, b, s, n, t, p, n);
      Subset(image, Ones(b, n));
      AllUsed(a, b, s, n, t, p);
      CountsLow(a, n);
      CountsAddUp(a, n);
      CountsHigh(b, n);
      CountsAddUp(b, n);
    }
  }

  lemma AtLeastThree(c: nat, p: nat)
    ensures c >= 3 ==> c * p >= 3 * p
  {
  }

  lemma AllUsed(a: seq<int>, b: seq<int>, s: seq<nat>, n: nat, t: nat, p: nat)
    requires Tight(a, b, s, n, t, p)
    ensures forall m :: 0 <= m < n ==> Count(a, m) >= 1 && Count(b, m) <= 2
  {
    BestIsAverage(b, s, n, t);
    forall m | 0 <= m < n
      ensures Count(a, m) >= 1 && Count(b, m) <= 2
    {
      CountLoad(a, s[..|a|], m, p);
      CountLoad(b, s, m, p);
      assert Load(b, s, m) <= t;
      AtLeastThree(Count(b, m), p);
      assert s[|a|] <= t;
      assert Load(a, s[..|a|], m) + p > t;
    }
  }

  /** Graham's bound: largest first, the heaviest group gets at most 4/3 - 1/(3N) times the best. */
  lemma LargestFirst(a: seq<int>, b: seq<int>, s: seq<nat>, n: nat, t: nat, m: int)
    requires n > 0 && Greedy(a, s, n) && Falling(s) && Fits(b, s, n, t) && 0 <= m < n
    ensures 3 * (n * Load(a, s, m)) <= (4 * n - 1) * t
  {
    hide Load, Greedy, Falling, Fits;
    GreedyLength(a, s, n);
    if Load(a, s, m) == 0 {
      BigArith(n, Load(a, s, m), t);
    } else {
      var j := LastOf(a, s, m);
      if 3 * s[j] <= t {
        SmallLast(a, b, s, n, t, m, j);
      } else {
        BigLast(a, b, s, n, t, m, j);
        BigArith(n, Load(a, s, m), t);
      }
    }
  }

  lemma SmallLast(a: seq<int>, b: seq<int>, s: seq<nat>, n: nat, t: nat, m: int, j: nat)
    requires n > 0 && Greedy(a, s, n) && Fits(b, s, n, t) && 0 <= m < n
    requires j < |a| && a[j] == m && Load(a, s, m) == Load(a[..j], s[..j], m) + s[j] && 3 * s[j] <= t
    ensures 3 * (n * Load(a, s, m)) <= (4 * n - 1) * t
  {
    hide Load, Total, Greedy, Fits;
    GreedyLength(a, s, n);
    AtPlacement(a, s, n, j);
    BestIsAverage(b, s, n, t);
    TotalPrefix(s, j + 1);
    TotalStep(s, j);
    PlacedBound(n, Load(a, s, m), Load(a[..j], s[..j], m), s[j], Total(s[..j]), s[j]);
    ThirdArith(n, n * Load(a, s, m), s[j], t);
  }

  lemma ThirdArith(n: nat, scaled: nat, p: nat, t: nat)
    requires n > 0 && scaled <= n * t + (n - 1) * p && 3 * p <= t
    ensures 3 * scaled <= (4 * n - 1) * t
  {
    Times(n - 1, 3 * p, t);
    assert (n - 1) * (3 * p) == 3 * ((n - 1) * p);
    assert (4 * n - 1) * t == 3 * (n * t) + (n - 1) * t;
  }

  lemma BigArith(n: nat, load: nat, t: nat)
    requires n > 0 && load <= t
    ensures 3 * (n * load) <= (4 * n - 1) * t
  {
    Times(n, load, t);
    Times(t, 0, n - 1);
    assert (4 * n - 1) * t == 3 * (n * t) + (n - 1) * t;
  }

  /** When the last item of a group is larger than a third of the best, the group is not above it. */
  lemma BigLast(a: seq<int>, b: seq<int>, s: seq<nat>, n: nat, t: nat, m: int, j: nat)
    requires n > 0 && Greedy(a, s, n) && Falling(s) && Fits(b, s, n, t) && 0 <= m < n
    requires j < |a| && a[j] == m && Load(a, s, m) == Load(a[..j], s[..j], m) + s[j] && 3 * s[j] > t
    ensures Load(a, s, m) <= t
  {
    var s', b' := s[..j + 1], b[..j + 1];
    forall k | 0 <= k < n
      ensures Load(b', s', k) <= t
    {
      LoadPrefix(b, s, j + 1, k);
      assert Load(b, s, k) <= t;
    }
    RoomLeft(a[..j], b', s', n, t, s[j]);
    assert s'[..j] == s[..j];
    assert LeastAt(a, s, n, j);
  }
}
