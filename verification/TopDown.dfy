/**
 * The nodes reachable without passing through one that is held, by batched queries
 * (src/top-down.hh: nextBatch and TopDownWalk).
 */
module TopDown {
  import opened Lists

  type Node = string   // a store path
  type Key = string    // a path the store may hold

  function SetOf(s: seq<Node>): set<Node> {
    set x | x in s
  }

  lemma SetOfHas(s: seq<Node>)
    ensures forall n :: n in s <==> n in SetOf(s)
  {
  }

  lemma SetOfAppend(s: seq<Node>, x: Node)
    ensures SetOf(s + [x]) == SetOf(s) + {x}
  {
  }

  ghost predicate Closed(nodes: set<Node>, below: Node -> set<Node>) {
    forall n :: n in nodes ==> below(n) <= nodes
  }

  function Max(a: int, b: int): int {
    if a < b then b else a
  }

  /** The unqueried nodes below those of `current`. */
  method Below(current: seq<Node>, below: Node -> set<Node>, queried: set<Node>) returns (found: set<Node>)
    ensures forall c :: c in found <==> c !in queried && IsBelow(current, below, c)
    ensures found == NewBelow(current, below, queried)
  {
    found := {};
    for i := 0 to |current|
      invariant forall c :: c in found <==> c !in queried && IsBelow(current[..i], below, c)
    {
      IsBelowAppend(current[..i], below, current[i]);
      assert current[..i + 1] == current[..i] + [current[i]];
      found := found + (below(current[i]) - queried);
    }
    assert current[..|current|] == current;
  }

  ghost predicate IsBelow(current: seq<Node>, below: Node -> set<Node>, c: Node) {
    exists i :: 0 <= i < |current| && c in below(current[i])
  }

  lemma IsBelowAppend(current: seq<Node>, below: Node -> set<Node>, n: Node)
    ensures forall c :: IsBelow(current + [n], below, c) <==> IsBelow(current, below, c) || c in below(n)
  {
    forall c
      ensures IsBelow(current + [n], below, c) <==> IsBelow(current, below, c) || c in below(n)
    {
      assert (current + [n])[|current|] == n;
      if IsBelow(current, below, c) {
        var i :| 0 <= i < |current| && c in below(current[i]);
        assert (current + [n])[i] == current[i];
      }
    }
  }

  /** The nodes of `level` that were not queried, once each. */
  method Fresh(level: seq<Node>, queried: set<Node>) returns (batch: seq<Node>, asked: set<Node>)
    ensures NoDup(batch) && SetOf(batch) == SetOf(level) - queried && asked == queried + SetOf(level)
    ensures |batch| == |SetOf(level) - queried|
  {
    batch, asked := [], queried;
    for i := 0 to |level|
      invariant NoDup(batch) && SetOf(batch) == SetOf(level[..i]) - queried && asked == queried + SetOf(level[..i])
    {
      assert level[..i + 1] == level[..i] + [level[i]];
      SetOfAppend(level[..i], level[i]);
      SetOfAppend(batch, level[i]);
      if level[i] !in asked {
        assert level[i] !in SetOf(batch);
        NoDupAppend(batch, level[i]);
        batch, asked := batch + [level[i]], asked + {level[i]};
      }
    }
    assert level[..|level|] == level;
    NoDupSize(batch);
  }

  method Pick(s: set<Node>) returns (n: Node)
    requires s != {}
    ensures n in s
  {
    assert (forall x :: x !in s) ==> s == {};
    n :| n in s;
  }

  method Listed(nodes: set<Node>) returns (list: seq<Node>)
    ensures NoDup(list) && SetOf(list) == nodes && |list| == |nodes|
  {
    list := [];
    var todo := nodes;
    while todo != {}
      invariant NoDup(list) && SetOf(list) !! todo && SetOf(list) + todo == nodes
      decreases todo
    {
      var n := Pick(todo);
      assert n !in SetOf(list);
      NoDupAppend(list, n);
      SetOfAppend(list, n);
      list, todo := list + [n], todo - {n};
    }
    NoDupSize(list);
  }

  lemma {:induction false} NoDupSize(s: seq<Node>)
    requires NoDup(s)
    ensures |SetOf(s)| == |s|
  {
    if s != [] {
      var n := |s| - 1;
      NoDupSize(s[..n]);
      assert s == s[..n] + [s[n]];
      assert SetOf(s) == SetOf(s[..n]) + {s[n]};
      assert s[n] !in s[..n];
    }
  }

  lemma NoDupConcat(a: seq<Node>, b: seq<Node>)
    requires NoDup(a) && NoDup(b) && SetOf(a) !! SetOf(b)
    ensures NoDup(a + b) && SetOf(a + b) == SetOf(a) + SetOf(b)
  {
    forall i, j | 0 <= i < |a| && 0 <= j < |b|
      ensures a[i] != b[j]
    {
      assert a[i] in SetOf(a) && b[j] in SetOf(b);
    }
  }

  /** A batch of nodes that were not queried before, each once. */
  ghost predicate BatchOk(batch: seq<Node>, queried: set<Node>, asked: set<Node>, nodes: set<Node>) {
    NoDup(batch) && SetOf(batch) !! queried && asked == queried + SetOf(batch) && SetOf(batch) <= nodes
  }

  lemma BatchGrows(batch: seq<Node>, queried: set<Node>, asked: set<Node>, nodes: set<Node>, more: seq<Node>)
    requires BatchOk(batch, queried, asked, nodes) && NoDup(more) && SetOf(more) !! asked && SetOf(more) <= nodes
    ensures BatchOk(batch + more, queried, asked + SetOf(more), nodes)
  {
    NoDupConcat(batch, more);
  }

  /** The nodes right below a level that nobody asked about. */
  ghost function NewBelow(current: seq<Node>, below: Node -> set<Node>, asked: set<Node>): set<Node> {
    set i, c | 0 <= i < |current| && c in below(current[i]) && c !in asked :: c
  }

  ghost function AskedAfter(queried: set<Node>, levels: seq<seq<Node>>): set<Node> {
    if levels == [] then queried else AskedAfter(queried, levels[..|levels| - 1]) + SetOf(levels[|levels| - 1])
  }

  /** Each level is all that is new below the one before. */
  ghost predicate Levels(levels: seq<seq<Node>>, below: Node -> set<Node>, queried: set<Node>) {
    forall k :: 1 <= k < |levels| ==>
      SetOf(levels[k]) == NewBelow(levels[k - 1], below, AskedAfter(queried, levels[..k]))
  }

  lemma OneLevel(level: seq<Node>, below: Node -> set<Node>, queried: set<Node>)
    ensures Levels([level], below, queried) && AskedAfter(queried, [level]) == queried + SetOf(level)
  {
    assert AskedAfter(queried, [level][..0]) == queried;
  }

  lemma LevelMore(levels: seq<seq<Node>>, below: Node -> set<Node>, queried: set<Node>, more: seq<Node>)
    requires Levels(levels, below, queried) && levels != []
    requires SetOf(more) == NewBelow(levels[|levels| - 1], below, AskedAfter(queried, levels))
    ensures Levels(levels + [more], below, queried)
    ensures AskedAfter(queried, levels + [more]) == AskedAfter(queried, levels) + SetOf(more)
  {
    hide SetOf, NewBelow;
    var all := levels + [more];
    assert all[..|levels|] == levels;
    forall k | 1 <= k < |all|
      ensures SetOf(all[k]) == NewBelow(all[k - 1], below, AskedAfter(queried, all[..k]))
    {
      if k < |levels| {
        assert all[..k] == levels[..k];
      }
    }
  }

  /** Takes what is new in `level`, then whole levels under it, until there is none left or the
      next one is over the budget. */
  method NextBatch(level: seq<Node>, below: Node -> set<Node>, queried: set<Node>, budget: nat, ghost nodes: set<Node>)
    returns (batch: seq<Node>, asked: set<Node>, ghost levels: seq<seq<Node>>)
    requires Closed(nodes, below) && SetOf(level) <= nodes
    ensures BatchOk(batch, queried, asked, nodes) && SetOf(level) <= asked
    ensures |batch| <= Max(budget, |SetOf(level) - queried|)
    ensures levels != [] && levels[0] == level && Levels(levels, below, queried) && asked == AskedAfter(queried, levels)
    ensures var next := NewBelow(levels[|levels| - 1], below, asked);
      next == {} || |batch| + |next| > budget
  {
    batch, asked := Fresh(level, queried);
    assert BatchOk(batch, queried, asked, nodes);
    OneLevel(level, below, queried);
    hide BatchOk, SetOf, NoDup, Levels, NewBelow, AskedAfter;
    var current := level;
    levels := [level];
    while |batch| < budget
      invariant BatchOk(batch, queried, asked, nodes) && SetOf(level) <= asked && SetOf(current) <= nodes
      invariant |batch| <= Max(budget, |SetOf(level) - queried|)
      invariant levels != [] && levels[0] == level && levels[|levels| - 1] == current
      invariant Levels(levels, below, queried) && asked == AskedAfter(queried, levels)
      decreases budget - |batch|
    {
      var found := Below(current, below, asked);
      BelowInside(current, below, nodes);
      if found == {} || |batch| + |found| > budget {
        return;
      }
      var listed := Listed(found);
      BatchGrows(batch, queried, asked, nodes, listed);
      LevelMore(levels, below, queried, listed);
      asked := asked + found;
      batch := batch + listed;
      current := listed;
      levels := levels + [listed];
    }
    SomeOrNone(NewBelow(current, below, asked));
  }

  lemma SomeOrNone(s: set<Node>)
    ensures s == {} || |s| > 0
  {
  }

  lemma BelowInside(current: seq<Node>, below: Node -> set<Node>, nodes: set<Node>)
    requires Closed(nodes, below) && SetOf(current) <= nodes
    ensures forall c :: IsBelow(current, below, c) ==> c in nodes
  {
  }

  // ------------------------------------------------------------- the walk

  /** All keys are in the store, and there are some. */
  predicate Held(keys: Node -> set<Key>, store: set<Key>, n: Node) {
    keys(n) != {} && keys(n) <= store
  }

  /** A path from a root along children. */
  ghost predicate Path(roots: seq<Node>, kids: Node -> seq<Node>, path: seq<Node>) {
    && path != [] && path[0] in roots
    && forall i :: 0 <= i < |path| - 1 ==> path[i + 1] in kids(path[i])
  }

  ghost predicate NoneHeld(keys: Node -> set<Key>, store: set<Key>, path: seq<Node>) {
    forall i :: 0 <= i < |path| ==> !Held(keys, store, path[i])
  }

  /** Reached from the roots through nodes that the store all lacks. */
  ghost predicate Lacks(roots: seq<Node>, kids: Node -> seq<Node>, keys: Node -> set<Key>, store: set<Key>, n: Node) {
    exists path :: Path(roots, kids, path) && NoneHeld(keys, store, path) && path[|path| - 1] == n
  }

  lemma LacksRoot(roots: seq<Node>, kids: Node -> seq<Node>, keys: Node -> set<Key>, store: set<Key>, n: Node)
    requires n in roots && !Held(keys, store, n)
    ensures Lacks(roots, kids, keys, store, n)
  {
    assert Path(roots, kids, [n]) && NoneHeld(keys, store, [n]);
  }

  lemma LacksChild(roots: seq<Node>, kids: Node -> seq<Node>, keys: Node -> set<Key>, store: set<Key>, n: Node, c: Node)
    requires Lacks(roots, kids, keys, store, n) && c in kids(n) && !Held(keys, store, c)
    ensures Lacks(roots, kids, keys, store, c)
  {
    var path :| Path(roots, kids, path) && NoneHeld(keys, store, path) && path[|path| - 1] == n;
    assert Path(roots, kids, path + [c]) && NoneHeld(keys, store, path + [c]);
  }

  /** A set with the lacking roots and the lacking children of its nodes has all of them. */
  lemma {:induction false} ClosedHasAll(roots: seq<Node>, kids: Node -> seq<Node>, keys: Node -> set<Key>,
                                        store: set<Key>, found: set<Node>, path: seq<Node>)
    requires forall n :: n in roots && !Held(keys, store, n) ==> n in found
    requires forall n, c :: n in found && c in kids(n) && !Held(keys, store, c) ==> c in found
    requires Path(roots, kids, path) && NoneHeld(keys, store, path)
    ensures path[|path| - 1] in found
    decreases |path|
  {
    if |path| > 1 {
      var front := path[..|path| - 1];
      assert Path(roots, kids, front) && NoneHeld(keys, store, front);
      ClosedHasAll(roots, kids, keys, store, found, front);
      assert path[|path| - 1] in kids(front[|front| - 1]);
    }
  }

  class TopDownWalk {
    const keys: Node -> set<Key>
    const kids: Node -> seq<Node>
    const store: set<Key>          // what a query finds
    const budget: nat
    ghost const nodes: set<Node>   // all there are

    var valid: set<Key>
    var queried: set<Node>
    var seen: set<Node>
    var missing: set<Node>
    ghost var batches: seq<set<Node>>

    /** Everything seen was queried and sorted out, but for the nodes of `level`. */
    ghost predicate Valid(level: set<Node>)
      reads this
    {
      && Closed(nodes, n => SetOf(kids(n)))
      && queried <= nodes && seen <= nodes && seen - level <= queried
      && Answered(keys, store, queried, valid)
      && SortedOut(keys, store, seen - level, missing)
      && queried == Union(batches) && Disjoint(batches)
    }

    constructor (keys: Node -> set<Key>, kids: Node -> seq<Node>, store: set<Key>, budget: nat, ghost nodes: set<Node>)
      requires Closed(nodes, n => SetOf(kids(n)))
      ensures Valid({}) && seen == {} && missing == {} && batches == []
      ensures this.keys == keys && this.kids == kids && this.store == store && this.budget == budget
      ensures this.nodes == nodes
    {
      this.keys, this.kids, this.store, this.budget, this.nodes := keys, kids, store, budget, nodes;
      valid, queried, seen, missing, batches := {}, {}, {}, {}, [];
    }

    method QueryBatch(batch: seq<Node>)
      requires Answered(keys, store, queried, valid)
      modifies this`valid
      ensures Answered(keys, store, queried + SetOf(batch), valid)
    {
      var wanted := {};
      for i := 0 to |batch|
        invariant forall j :: 0 <= j < i ==> keys(batch[j]) <= wanted
      {
        wanted := wanted + keys(batch[i]);
      }
      if wanted != {} {
        valid := valid + wanted * store;
      }
      forall n, k | n in queried + SetOf(batch) && k in keys(n) && k in store
        ensures k in valid
      {
        if n in batch {
          var j :| 0 <= j < |batch| && batch[j] == n;
          assert k in wanted;
        }
      }
    }

    /** Drops what was seen before from a level. */
    method DropSeen(level: seq<Node>) returns (left: seq<Node>)
      modifies this`seen
      ensures NoDup(left) && SetOf(left) == SetOf(level) - old(seen) && seen == old(seen) + SetOf(level)
    {
      left := [];
      for i := 0 to |level|
        invariant NoDup(left) && SetOf(left) == SetOf(level[..i]) - old(seen) && seen == old(seen) + SetOf(level[..i])
      {
        assert level[..i + 1] == level[..i] + [level[i]];
        SetOfAppend(level[..i], level[i]);
        SetOfAppend(left, level[i]);
        if level[i] !in seen {
          assert level[i] !in SetOf(left);
          NoDupAppend(left, level[i]);
          seen := seen + {level[i]};
          left := left + [level[i]];
        }
      }
      assert level[..|level|] == level;
    }

    /** Queries a level, and what the budget allows below it. */
    method Ask(level: seq<Node>) returns (batch: seq<Node>)
      requires Valid(SetOf(level)) && SetOf(level) <= seen
      modifies this`valid, this`queried, this`batches
      ensures Valid(SetOf(level)) && SetOf(level) <= queried
      ensures NoDup(batch) && batches == old(batches) + [SetOf(batch)]
      ensures |batch| <= Max(budget, |SetOf(level) - old(queried)|)
    {
      hide Union, Disjoint, Answered, SetOf, SortedOut, Max, Closed;
      var asked;
      ghost var levels;
      batch, asked, levels := NextBatch(level, n => SetOf(kids(n)), queried, budget, nodes);
      BatchesGrow(batches, SetOf(batch));
      QueryBatch(batch);
      batches := batches + [SetOf(batch)];
      queried := asked;
    }

    predicate IsHeld(n: Node)
      reads this
      requires Answered(keys, store, queried, valid) && n in queried
      ensures IsHeld(n) <==> Held(keys, store, n)
    {
      keys(n) != {} && forall k :: k in keys(n) ==> k in valid
    }

    /** Sorts a queried level into held and missing; the children of the missing come next. */
    method Sift(level: seq<Node>) returns (next: seq<Node>)
      requires Valid(SetOf(level)) && SetOf(level) <= queried && SetOf(level) <= seen
      modifies this`missing
      ensures Valid({})
      ensures forall n :: n in missing <==> n in old(missing) || (n in level && !Held(keys, store, n))
      ensures forall c :: c in next <==> NextHas(level, c)
    {
      next := [];
      for i := 0 to |level|
        invariant forall n :: n in missing <==> n in old(missing) || (n in level[..i] && !Held(keys, store, n))
        invariant forall c :: c in next <==> NextHas(level[..i], c)
      {
        NextHasAppend(level[..i], level[i]);
        assert level[..i + 1] == level[..i] + [level[i]];
        assert level[i] in SetOf(level);
        if !IsHeld(level[i]) {
          missing := missing + {level[i]};
          next := next + kids(level[i]);
        }
      }
      assert level[..|level|] == level;
      Sorted(old(missing), level);
    }

    ghost predicate NextHas(level: seq<Node>, c: Node) {
      exists i :: 0 <= i < |level| && !Held(keys, store, level[i]) && c in kids(level[i])
    }

    lemma NextHasAppend(level: seq<Node>, n: Node)
      ensures forall c :: NextHas(level + [n], c) <==> NextHas(level, c) || (!Held(keys, store, n) && c in kids(n))
    {
      forall c
        ensures NextHas(level + [n], c) <==> NextHas(level, c) || (!Held(keys, store, n) && c in kids(n))
      {
        assert (level + [n])[|level|] == n;
        if NextHas(level, c) {
          var i :| 0 <= i < |level| && !Held(keys, store, level[i]) && c in kids(level[i]);
          assert (level + [n])[i] == level[i];
        }
      }
    }

    lemma Sorted(before: set<Node>, level: seq<Node>)
      requires SortedOut(keys, store, seen - SetOf(level), before) && SetOf(level) <= seen
      requires forall n :: n in missing <==> n in before || (n in level && !Held(keys, store, n))
      ensures SortedOut(keys, store, seen - {}, missing)
    {
    }

    /** Every node of a level is a root or a child of a missing node, and what is still to be
        looked at is on it. */
    ghost predicate Frontier(roots: seq<Node>, level: seq<Node>, seen: set<Node>, missing: set<Node>) {
      && (forall n :: n in roots ==> n in seen || n in level)
      && (forall m, c :: m in missing && c in kids(m) ==> c in seen || c in level)
      && (forall n :: n in level ==> n in roots || ChildOf(missing, n))
      && (forall n :: n in missing ==> Lacks(roots, kids, keys, store, n))
    }

    ghost predicate ChildOf(missing: set<Node>, n: Node) {
      exists m :: m in missing && n in kids(m)
    }

    lemma FrontierStep(roots: seq<Node>, level: seq<Node>, seen: set<Node>, missing: set<Node>, next: seq<Node>,
                       missing': set<Node>)
      requires Frontier(roots, level, seen, missing) && SetOf(level) <= seen
      requires forall n :: n in missing' <==> n in missing || (n in level && !Held(keys, store, n))
      requires forall c :: c in next <==> NextHas(level, c)
      ensures Frontier(roots, next, seen, missing')
    {
      forall n | n in missing'
        ensures Lacks(roots, kids, keys, store, n)
      {
        if n !in missing {
          if n in roots {
            LacksRoot(roots, kids, keys, store, n);
          } else {
            var m :| m in missing && n in kids(m);
            LacksChild(roots, kids, keys, store, m, n);
          }
        }
      }
      forall n | n in next
        ensures ChildOf(missing', n)
      {
        var i :| 0 <= i < |level| && !Held(keys, store, level[i]) && n in kids(level[i]);
        assert level[i] in missing';
      }
      forall m, c | m in missing' && c in kids(m)
        ensures c in seen || c in next
      {
        if m !in missing {
          var i :| 0 <= i < |level| && level[i] == m;
          assert NextHas(level, c);
        }
      }
    }

    lemma FrontierDrop(roots: seq<Node>, level: seq<Node>, seen: set<Node>, missing: set<Node>, left: seq<Node>)
      requires Frontier(roots, level, seen, missing) && SetOf(left) == SetOf(level) - seen
      ensures Frontier(roots, left, seen + SetOf(level), missing)
    {
      forall n
        ensures n in left <==> n in level && n !in seen
      {
        assert n in SetOf(left) <==> n in left;
        assert n in SetOf(level) <==> n in level;
      }
    }

    lemma NextInside(level: seq<Node>, next: seq<Node>)
      requires Closed(nodes, n => SetOf(kids(n))) && SetOf(level) <= nodes
      requires forall c :: c in next <==> NextHas(level, c)
      ensures SetOf(next) <= nodes
    {
      forall c | c in next
        ensures c in nodes
      {
        var i :| 0 <= i < |level| && !Held(keys, store, level[i]) && c in kids(level[i]);
        assert level[i] in SetOf(level) && c in SetOf(kids(level[i]));
      }
    }

    method Level(roots: seq<Node>, level: seq<Node>) returns (next: seq<Node>)
      requires Valid(SetOf(level)) && SetOf(level) <= seen && Frontier(roots, level, seen, missing)
      modifies this`valid, this`queried, this`missing, this`batches
      ensures Valid({}) && SetOf(next) <= nodes && Frontier(roots, next, seen, missing)
    {
      hide Frontier, NextHas, Union, Disjoint, Answered, Closed, SortedOut, SetOf;
      var _ := Ask(level);
      next := Sift(level);
      FrontierStep(roots, level, seen, old(missing), next, missing);
      NextInside(level, next);
    }

    method Run(roots: seq<Node>)
      requires Valid({}) && seen == {} && missing == {} && SetOf(roots) <= nodes
      modifies this
      ensures Valid({})
      ensures forall n :: n in missing <==> Lacks(roots, kids, keys, store, n)
    {
      hide Lacks, Union, Disjoint, Answered, Closed, SortedOut;
      var level := roots;
      while true
        invariant Valid({}) && SetOf(level) <= nodes && Frontier(roots, level, seen, missing)
        decreases nodes - seen
      {
        ghost var seen0, level0 := seen, level;
        level := DropSeen(level);
        FrontierDrop(roots, level0, seen0, missing, level);
        assert seen - SetOf(level) == seen0 == seen0 - {};
        if level == [] {
          assert seen - {} == seen0;
          break;
        }
        assert level[0] in SetOf(level);
        hide Frontier;
        level := Level(roots, level);
      }
      Complete(roots);
    }

    lemma Complete(roots: seq<Node>)
      requires Valid({}) && Frontier(roots, [], seen, missing)
      ensures forall n :: n in missing <==> Lacks(roots, kids, keys, store, n)
    {
      forall n | Lacks(roots, kids, keys, store, n)
        ensures n in missing
      {
        var path :| Path(roots, kids, path) && NoneHeld(keys, store, path) && path[|path| - 1] == n;
        ClosedHasAll(roots, kids, keys, store, missing, path);
      }
    }
  }

  /** `valid` is what the store holds of the keys asked for. */
  ghost predicate Answered(keys: Node -> set<Key>, store: set<Key>, queried: set<Node>, valid: set<Key>) {
    valid <= store && forall n, k :: n in queried && k in keys(n) && k in store ==> k in valid
  }

  ghost predicate SortedOut(keys: Node -> set<Key>, store: set<Key>, done: set<Node>, missing: set<Node>) {
    missing <= done && forall n :: n in done ==> (n in missing <==> !Held(keys, store, n))
  }

  ghost function Union(batches: seq<set<Node>>): set<Node> {
    if batches == [] then {} else Union(batches[..|batches| - 1]) + batches[|batches| - 1]
  }

  ghost predicate Disjoint(batches: seq<set<Node>>) {
    forall i, j :: 0 <= i < j < |batches| ==> batches[i] !! batches[j]
  }

  lemma {:induction false} BatchesGrow(batches: seq<set<Node>>, batch: set<Node>)
    requires Disjoint(batches) && batch !! Union(batches)
    ensures Disjoint(batches + [batch]) && Union(batches + [batch]) == Union(batches) + batch
  {
    assert (batches + [batch])[..|batches|] == batches;
    forall i | 0 <= i < |batches|
      ensures batches[i] <= Union(batches)
    {
      InUnion(batches, i);
    }
  }

  lemma {:induction false} InUnion(batches: seq<set<Node>>, i: int)
    requires 0 <= i < |batches|
    ensures batches[i] <= Union(batches)
  {
    if i < |batches| - 1 {
      InUnion(batches[..|batches| - 1], i);
    }
  }

  /** The nodes reached from the roots through nodes that are all lacking, whatever the budget. */
  method MissingTopDown(roots: seq<Node>, keys: Node -> set<Key>, kids: Node -> seq<Node>, store: set<Key>, budget: nat,
                        ghost nodes: set<Node>) returns (missing: set<Node>)
    requires Closed(nodes, n => SetOf(kids(n))) && SetOf(roots) <= nodes
    ensures forall n :: n in missing <==> Lacks(roots, kids, keys, store, n)
  {
    hide Lacks;
    var walk := new TopDownWalk(keys, kids, store, budget, nodes);
    walk.Run(roots);
    missing := walk.missing;
  }

  ghost predicate Reached(roots: seq<Node>, kids: Node -> seq<Node>, n: Node) {
    exists path :: Path(roots, kids, path) && path[|path| - 1] == n
  }

  /** If holding a node means holding its children, those are all the reached nodes not held. */
  lemma HeldBelowSuffices(roots: seq<Node>, kids: Node -> seq<Node>, keys: Node -> set<Key>, store: set<Key>, n: Node)
    requires forall m, c :: Held(keys, store, m) && c in kids(m) ==> Held(keys, store, c)
    ensures Lacks(roots, kids, keys, store, n) <==> Reached(roots, kids, n) && !Held(keys, store, n)
  {
    if Reached(roots, kids, n) && !Held(keys, store, n) {
      var path :| Path(roots, kids, path) && path[|path| - 1] == n;
      LackingAbove(roots, kids, keys, store, path, |path| - 1);
    }
  }

  lemma {:induction false} LackingAbove(roots: seq<Node>, kids: Node -> seq<Node>, keys: Node -> set<Key>,
                                        store: set<Key>, path: seq<Node>, i: int)
    requires forall m, c :: Held(keys, store, m) && c in kids(m) ==> Held(keys, store, c)
    requires Path(roots, kids, path) && 0 <= i < |path| && !Held(keys, store, path[i])
    ensures forall j :: 0 <= j <= i ==> !Held(keys, store, path[j])
  {
    if i > 0 {
      assert path[i - 1 + 1] in kids(path[i - 1]);
      LackingAbove(roots, kids, keys, store, path, i - 1);
    }
  }
}
