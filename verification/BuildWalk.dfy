/**
 * The walk that solves those equations (src/top-down.hh: BuildWalk), a level of the graph
 * at a time, asking the store ahead in batches.
 */
module BuildWalks {
  import opened Lists
  import opened TopDown
  import opened BuildSpec

  /** A query finds at least what the store holds and at most what it can have. */
  ghost predicate QueryOk(query: (nat, set<Key>) -> set<Key>, store: set<Key>, avail: set<Key>) {
    forall i, keys :: keys * store <= query(i, keys) && query(i, keys) <= keys * avail
  }

  /** Every key the store holds of the nodes queried is known. */
  ghost predicate KnownOk(store: set<Key>, anyNeeds: map<Node, set<Key>>, queried: set<Node>, valid: set<Key>) {
    forall n, k :: n in queried && k in Get(anyNeeds, n) && k in store ==> k in valid
  }

  /** Fetches are for keys the store does not hold, of needed nodes that are not forced. */
  ghost predicate FetchedOk(p: Problem, made: set<Node>, store: set<Key>, fetched: set<Key>) {
    forall k :: k in fetched ==> k !in store && exists n :: Wants(p, made, n, k)
  }

  ghost predicate Wants(p: Problem, made: set<Node>, n: Node, k: Key) {
    Needed(p, made, n) && !p.Forced(n) && NeedsKey(p, made, n, k)
  }

  lemma NothingAsked(p: Problem, store: set<Key>, anyNeeds: map<Node, set<Key>>)
    ensures KnownOk(store, anyNeeds, {}, {}) && FetchedOk(p, {}, store, {})
  {
  }

  class BuildWalk {
    const p: Problem
    const query: (nat, set<Key>) -> set<Key>
    const budget: nat
    ghost const store: set<Key>

    var rebuilt: set<Node>
    var used: Graph
    var users: map<Node, int>
    var needs: map<Node, set<Key>>
    var anyNeeds: map<Node, set<Key>>
    var level: seq<Node>
    var valid: set<Key>
    var queried: set<Node>
    var missing: set<Node>
    var calls: nat                 // queries so far: answers may differ between calls
    ghost var decided: set<Node>
    ghost var fetched: set<Key>

    ghost predicate Params()
      reads this
    {
      && QueryOk(query, store, p.avail) && rebuilt == (if p.rebuild then p.roots.Keys else {})
    }

    ghost predicate Asked()
      reads this
    {
      && AnyOk(p, used, anyNeeds) && queried <= used.Keys && valid <= p.avail
      && KnownOk(store, anyNeeds, queried, valid)
      && FetchedOk(p, missing, store, fetched)
    }

    ghost predicate Valid(ready: set<Node>)
      reads this
    {
      && Params() && Asked()
      && GraphOk(p, used) && CountsOk(used, decided, users) && OrderOk(used, decided, ready)
      && NeedsOk(p, missing, needs) && DecidedOk(p, decided, missing)
    }

    // --------------------------------------------------------- collecting the graph

    constructor (p: Problem, query: (nat, set<Key>) -> set<Key>, budget: nat, ghost store: set<Key>,
                 ghost nodes: set<Node>)
      requires QueryOk(query, store, p.avail) && Inside(p, nodes)
      ensures Valid(SetOf(level)) && NoDup(level) && decided == {}
      ensures this.p == p && this.store == store && this.budget == budget && fetched == {}
    {
      this.p, this.query, this.budget, this.store := p, query, budget, store;
      rebuilt, used, users, needs, anyNeeds := {}, map[], map[], map[], map[];
      level, valid, queried, missing, calls, decided, fetched := [], {}, {}, {}, 0, {}, {};
      new;
      Collect(nodes);
    }

    method Collect(ghost nodes: set<Node>)
      requires QueryOk(query, store, p.avail) && Inside(p, nodes)
      requires needs == map[] && anyNeeds == map[] && used == map[] && users == map[] && level == []
      requires valid == {} && queried == {} && missing == {} && rebuilt == {} && decided == {} && fetched == {}
      modifies this`rebuilt, this`used, this`users, this`needs, this`anyNeeds, this`level
      ensures Valid(SetOf(level)) && NoDup(level)
    {
      hide PartOk, UsersOk, AnyOk, NeedsOk, GraphOk, CountsOk, OrderOk, DecidedOk, QueryOk, NoDup, KnownOk, FetchedOk,
        SetOf,
        Inside, Requests, Unused;
      var roots := Listed(p.roots.Keys);
      AddRoots(roots);
      StartNeeds(p, needs);
      Explore(roots, nodes);
      FirstLevel(roots);
      WalkStarts(p, used, users, SetOf(level));
      NothingAsked(p, store, anyNeeds);
    }

    method AddRoots(roots: seq<Node>)
      requires NoDup(roots) && SetOf(roots) == p.roots.Keys
      requires needs == map[] && anyNeeds == map[] && rebuilt == {}
      modifies this`needs, this`anyNeeds, this`rebuilt
      ensures Requests(p, needs)
      ensures anyNeeds == needs && rebuilt == if p.rebuild then p.roots.Keys else {}
    {
      for i := 0 to |roots|
        invariant needs.Keys == SetOf(roots[..i]) && (forall n :: n in needs ==> needs[n] == p.RootKeys(n))
        invariant anyNeeds == needs && rebuilt == if p.rebuild then SetOf(roots[..i]) else {}
      {
        var root := roots[i];
        assert root in SetOf(roots);
        assert roots[..i + 1] == roots[..i] + [root];
        SetOfAppend(roots[..i], root);
        var keys := {};
        if p.rebuild {
          rebuilt := rebuilt + {root};
        } else {
          keys := p.roots[root];
        }
        needs := needs[root := keys];
        anyNeeds := anyNeeds[root := keys];
      }
      assert roots[..|roots|] == roots;
    }

    method FirstLevel(roots: seq<Node>)
      requires NoDup(roots) && SetOf(roots) == p.roots.Keys && level == []
      modifies this`level
      ensures NoDup(level) && Unused(p, users, SetOf(level))
    {
      for i := 0 to |roots|
        invariant NoDup(level) && forall n :: n in SetOf(level) <==> n in roots[..i] && n !in users
      {
        assert roots[..i + 1] == roots[..i] + [roots[i]];
        if roots[i] !in users {
          assert roots[i] !in SetOf(level);
          SetOfAppend(level, roots[i]);
          NoDupAppend(level, roots[i]);
          level := level + [roots[i]];
        }
      }
      assert roots[..|roots|] == roots;
    }

    /** Adds a node: what it needs of its children, and that it is their user. */
    method AddNode(node: Node, todo: seq<Node>) returns (more: seq<Node>)
      requires node !in used
      modifies this`used, this`users, this`anyNeeds
      ensures used == old(used)[node := p.uses(node)]
      ensures users == Raised(old(users), p.uses(node).Keys)
      ensures anyNeeds == Grown(old(anyNeeds), p.uses(node), p.uses(node).Keys)
      ensures forall n :: n in more <==> n in todo || n in p.uses(node)
    {
      var uses := p.uses(node);
      used := used[node := uses];
      more := todo;
      var left := uses.Keys;
      hide Grown, Raised;
      NothingDone(anyNeeds, uses, users);
      assert uses.Keys - left == {};
      while left != {}
        invariant left <= uses.Keys && used == old(used)[node := uses]
        invariant users == Raised(old(users), uses.Keys - left)
        invariant anyNeeds == Grown(old(anyNeeds), uses, uses.Keys - left)
        invariant forall n :: n in more <==> n in todo || n in uses.Keys - left
        decreases left
      {
        var child := Pick(left);
        var done := uses.Keys - left;
        left := left - {child};
        assert uses.Keys - left == done + {child};
        GrownStep(old(anyNeeds), uses, done, child);
        RaisedStep(old(users), done, child);
        anyNeeds := anyNeeds[child := Get(anyNeeds, child) + uses[child]];
        users := users[child := Count(users, child) + 1];
        more := more + [child];
      }
      assert uses.Keys - left == uses.Keys;
    }

    /** Finds every node a root needs, with what it uses. */
    method Explore(roots: seq<Node>, ghost nodes: set<Node>)
      requires used == map[] && users == map[] && AnyOk(p, used, anyNeeds)
      requires SetOf(roots) == p.roots.Keys && Inside(p, nodes)
      modifies this`used, this`users, this`anyNeeds
      ensures PartOk(p, used, []) && UsersOk(used, users) && AnyOk(p, used, anyNeeds)
    {
      hide PartOk, UsersOk, AnyOk, Grown, Raised;
      SetOfHas(roots);
      var todo := roots;
      NothingUsed(p, roots);
      assert SetOf(todo) <= nodes;
      while todo != []
        invariant PartOk(p, used, todo) && UsersOk(used, users) && AnyOk(p, used, anyNeeds)
        invariant used.Keys <= nodes && SetOf(todo) <= nodes
        decreases nodes - used.Keys, |todo|
      {
        var node := todo[|todo| - 1];
        var rest := todo[..|todo| - 1];
        assert todo == rest + [node];
        SetOfAppend(rest, node);
        if node in used {
          PartShrinks(p, used, todo, rest);
          todo := rest;
        } else {
          UsersRaised(p, used, users, node);
          AnyGrown(p, used, anyNeeds, node);
          ghost var used0, todo0 := used, todo;
          todo := AddNode(node, rest);
          PartGrows(p, used0, todo0, node, todo);
          assert node in nodes - used0.Keys && nodes - used.Keys == nodes - used0.Keys - {node};
          assert SetOf(todo) <= nodes;
        }
      }
    }

    // --------------------------------------------------------- asking the store

    /** Asks for all that any user might need of these nodes, and of those below that fit. */
    method QueryAhead(needed: seq<Node>)
      requires Params() && Asked() && GraphOk(p, used) && SetOf(needed) <= used.Keys
      modifies this`valid, this`queried, this`calls
      ensures Params() && Asked() && SetOf(needed) <= queried && old(valid) <= valid
    {
      hide AnyOk, FetchedOk, KnownOk, SetOf, QueryOk, GraphOk, Closed, BatchOk, Levels, AskedAfter, NewBelow;
      GraphClosed(p, used);
      var u := used;
      var batch, asked, _ := NextBatch(needed, n => if n in u then u[n].Keys else {}, queried, budget, used.Keys);
      BatchFacts(batch, queried, asked, used.Keys);
      var keys := KeysOf(batch);
      ghost var valid0 := valid;
      Ask(keys);
      KnowMore(store, anyNeeds, queried, valid0, batch, keys, valid);
      queried := asked;
    }

    method Ask(keys: set<Key>)
      requires QueryOk(query, store, p.avail) && valid <= p.avail
      modifies this`valid, this`calls
      ensures old(valid) <= valid && keys * store <= valid && valid <= p.avail
    {
      if keys != {} {
        var found := query(calls, keys);
        calls := calls + 1;
        assert keys * store <= found && found <= keys * p.avail;
        valid := valid + found;
      }
    }

    method KeysOf(batch: seq<Node>) returns (keys: set<Key>)
      ensures forall n :: n in batch ==> Get(anyNeeds, n) <= keys
      ensures forall k :: k in keys ==> exists i :: 0 <= i < |batch| && k in Get(anyNeeds, batch[i])
    {
      keys := {};
      for i := 0 to |batch|
        invariant forall j :: 0 <= j < i ==> Get(anyNeeds, batch[j]) <= keys
        invariant forall k :: k in keys ==> exists j :: 0 <= j < i && k in Get(anyNeeds, batch[j])
      {
        keys := keys + Get(anyNeeds, batch[i]);
      }
    }

    /** Fetches what needed nodes that are not forced still lack. */
    method FetchLacking(needed: seq<Node>)
      requires Params() && Asked() && NeedsOk(p, missing, needs) && missing <= used.Keys
      requires SetOf(needed) <= queried && forall n :: n in needed ==> n in needs
      modifies this`valid, this`fetched
      ensures Params() && Asked() && old(valid) <= valid
      ensures Tried(p, needs, valid, SetOf(needed))
    {
      hide AnyOk, FetchedOk, KnownOk, QueryOk, NeedsOk, LacksKey;
      var lacking := WhatLacks(needed);
      FetchesFine(needed, lacking);
      if lacking != {} {
        ghost var valid0 := valid;
        valid := valid + lacking * p.avail;
        fetched := fetched + lacking;
        KnowMore(store, anyNeeds, queried, valid0, [], {}, valid);
        assert queried + SetOf([]) == queried;
      }
    }

    method WhatLacks(needed: seq<Node>) returns (lacking: set<Key>)
      requires forall n :: n in needed ==> n in needs
      ensures forall n :: n in SetOf(needed) && n !in rebuilt ==> needs[n] <= lacking + valid
      ensures forall k :: k in lacking ==> k !in valid && LacksKey(needed, k)
    {
      lacking := {};
      for i := 0 to |needed|
        invariant forall j :: 0 <= j < i && needed[j] !in rebuilt ==> needs[needed[j]] <= lacking + valid
        invariant forall k :: k in lacking ==> k !in valid && LacksKey(needed[..i], k)
      {
        assert needed[..i + 1] == needed[..i] + [needed[i]];
        LacksKeyMore(needed[..i], needed[i]);
        if needed[i] !in rebuilt {
          lacking := lacking + (needs[needed[i]] - valid);
        }
      }
      assert needed[..|needed|] == needed;
    }

    ghost predicate LacksKey(needed: seq<Node>, k: Key)
      reads this
    {
      exists i :: 0 <= i < |needed| && needed[i] !in rebuilt && needed[i] in needs && k in needs[needed[i]]
    }

    lemma LacksKeyMore(needed: seq<Node>, n: Node)
      ensures forall k :: LacksKey(needed, k) || (n !in rebuilt && n in needs && k in needs[n]) ==>
        LacksKey(needed + [n], k)
    {
      forall k | LacksKey(needed, k)
        ensures LacksKey(needed + [n], k)
      {
        var i :| 0 <= i < |needed| && needed[i] !in rebuilt && needed[i] in needs && k in needs[needed[i]];
        assert (needed + [n])[i] == needed[i];
      }
      assert (needed + [n])[|needed|] == n;
    }

    lemma FetchesFine(needed: seq<Node>, lacking: set<Key>)
      requires Params() && Asked() && NeedsOk(p, missing, needs) && missing <= used.Keys && SetOf(needed) <= queried
      requires forall k :: k in lacking ==> k !in valid && LacksKey(needed, k)
      ensures FetchedOk(p, missing, store, fetched + lacking)
    {
      forall k | k in lacking
        ensures k !in store && exists n :: Wants(p, missing, n, k)
      {
        var i :| 0 <= i < |needed| && needed[i] !in rebuilt && needed[i] in needs && k in needs[needed[i]];
        var n := needed[i];
        assert n in SetOf(needed);
        assert Wants(p, missing, n, k);
        NeededIsAny(p, missing, used, n, k);
        assert k in Get(anyNeeds, n);
      }
    }

    // --------------------------------------------------------- deciding

    method AddNeeds(node: Node)
      requires node in used
      modifies this`needs
      ensures needs == Grown(old(needs), used[node], used[node].Keys)
    {
      var uses := used[node];
      var left := uses.Keys;
      hide Grown;
      NothingDone(needs, uses, map[]);
      assert uses.Keys - left == {};
      while left != {}
        invariant left <= uses.Keys && needs == Grown(old(needs), uses, uses.Keys - left)
        decreases left
      {
        var child := Pick(left);
        var done := uses.Keys - left;
        left := left - {child};
        assert uses.Keys - left == done + {child};
        GrownStep(old(needs), uses, done, child);
        needs := needs[child := Get(needs, child) + uses[child]];
      }
      assert uses.Keys - left == uses.Keys;
    }

    /** A node is decided: its children have a user less, and those with none left come next. */
    method Release(node: Node, next: seq<Node>) returns (more: seq<Node>)
      requires node in used && used[node].Keys <= users.Keys && NoDup(next)
      requires used[node].Keys !! SetOf(next)
      modifies this`users
      ensures users == Lowered(old(users), used[node].Keys)
      ensures NoDup(more) && SetOf(more) == SetOf(next) + set n | n in used[node] && old(users)[n] == 1
    {
      more := next;
      var uses := used[node];
      var left := uses.Keys;
      NothingDone(map[], uses, users);
      assert uses.Keys - left == {};
      while left != {}
        invariant left <= uses.Keys && users == Lowered(old(users), uses.Keys - left)
        invariant NoDup(more) && SetOf(more) == SetOf(next) + set n | n in uses.Keys - left && old(users)[n] == 1
        decreases left
      {
        var child := Pick(left);
        var done := uses.Keys - left;
        left := left - {child};
        assert uses.Keys - left == done + {child};
        LoweredStep(old(users), done, child);
        users := users[child := users[child] - 1];
        if users[child] == 0 {
          assert child !in SetOf(more);
          NoDupAppend(more, child);
          SetOfAppend(more, child);
          more := more + [child];
        }
      }
      assert uses.Keys - left == uses.Keys;
    }

    predicate IsHeld(node: Node)
      reads this
      requires node in needs
    {
      node !in rebuilt && needs[node] != {} && needs[node] <= valid
    }

    /** The node is missing if it is needed and not held. */
    method Make(node: Node)
      requires Params() && Asked() && GraphOk(p, used) && NeedsOk(p, missing, needs) && node in used
      requires Tried(p, needs, valid, {node})
      modifies this`missing, this`needs
      ensures Params() && Asked() && NeedsOk(p, missing, needs)
      ensures missing == if Lacking(p, old(missing), node) then old(missing) + {node} else old(missing)
      ensures forall n :: n !in used[node] ==> (n in needs <==> n in old(needs)) && Get(needs, n) == Get(old(needs), n)
    {
      hide NeedsOk, AnyOk, KnownOk, FetchedOk, QueryOk, Lacking, Tried, GraphOk, Grown, Get;
      LackingTest(p, missing, needs, valid, rebuilt, node);
      if node in needs && !IsHeld(node) {
        UsesOf(p, used, node);
        MoreNeeds(p, missing, needs, node);
        GrownElsewhere(needs, used[node]);
        FetchedMore(p, missing, store, fetched, node);
        missing := missing + {node};
        AddNeeds(node);
      }
    }

    method DecideNode(node: Node, next: seq<Node>, ghost ready: set<Node>) returns (more: seq<Node>)
      requires Valid(ready) && node in ready && NoDup(next) && SetOf(next) <= ready - {node}
      requires Tried(p, needs, valid, {node})
      modifies this`missing, this`needs, this`users, this`decided
      ensures node in used && decided == old(decided) + {node}
      ensures Valid(ready - {node} + Freed(used, old(decided), node))
      ensures NoDup(more) && SetOf(more) == SetOf(next) + Freed(used, old(decided), node)
      ensures Freed(used, old(decided), node) !! ready
      ensures forall n :: n in ready ==> (n in needs <==> n in old(needs)) && Get(needs, n) == Get(old(needs), n)
    {
      hide NeedsOk, AnyOk, KnownOk, FetchedOk, QueryOk, Lacking, Tried, DecidedOk, CountsOk, NoDup, SetOf, GraphOk,
        OrderOk, Freed,
        Lowered, Get;
      InGraph(p, used, decided, ready, node);
      DecideOne(p, used, decided, ready, missing, node);
      OrderAfter(used, decided, ready, node);
      CountsAfter(used, decided, users, node);
      LastUsers(used, decided, users, node);
      Make(node);
      more := Release(node, next);
      decided := decided + {node};
    }

    /** Settles for each node of the level whether it is made. What comes back waits for no user. */
    method Decide() returns (next: seq<Node>)
      requires Valid(SetOf(level)) && NoDup(level) && Tried(p, needs, valid, SetOf(level))
      modifies this`missing, this`needs, this`users, this`decided
      ensures Valid(SetOf(next)) && NoDup(next) && decided == old(decided) + SetOf(level)
    {
      hide Valid, Tried, NoDup, SetOf, Freed, Get;
      next := [];
      ghost var ready := SetOf(level);
      LevelStart(level);
      for i := 0 to |level|
        invariant Valid(ready) && ready == SetOf(level[i..]) + SetOf(next) && NoDup(next) && NoDup(level)
        invariant SetOf(level[i..]) !! SetOf(next) && Tried(p, needs, valid, SetOf(level[i..]))
        invariant decided == old(decided) + SetOf(level[..i])
      {
        LevelStep(level, i);
        ghost var needs0, decided0, rest := needs, decided, SetOf(level[i + 1..]);
        TriedLess(p, needs, valid, SetOf(level[i..]), {level[i]});
        TriedLess(p, needs, valid, SetOf(level[i..]), rest);
        next := DecideNode(level[i], next, ready);
        TriedKept(p, needs0, needs, valid, rest);
        ready := ready - {level[i]} + Freed(used, decided0, level[i]);
      }
      LevelEnd(level);
      assert ready == SetOf(next);
    }

    /** Those of the level that are needed. */
    method NeededOf() returns (needed: seq<Node>)
      ensures forall n :: n in needed <==> n in level && n in needs
    {
      needed := [];
      for i := 0 to |level|
        invariant forall n :: n in needed <==> n in level[..i] && n in needs
      {
        assert level[..i + 1] == level[..i] + [level[i]];
        if level[i] in needs {
          needed := needed + [level[i]];
        }
      }
      assert level[..|level|] == level;
    }

    /** What is missing is the solution, whatever the budget and the answers to queries. */
    method Run(ghost rank: Node -> nat)
      requires Valid(SetOf(level)) && NoDup(level) && Acyclic(p, rank)
      modifies this
      ensures Solution(p, missing) && decided == used.Keys && FetchedOk(p, missing, store, fetched)
    {
      hide NoDup, SetOf, Acyclic, GraphOk, CountsOk, OrderOk, NeedsOk, DecidedOk, AnyOk, KnownOk, FetchedOk, QueryOk,
        Tried, Solution;
      while level != []
        invariant Valid(SetOf(level)) && NoDup(level)
        decreases used.Keys - decided
      {
        var needed := NeededOf();
        LevelFacts(p, used, decided, level, needs, needed, missing);
        QueryAhead(needed);
        FetchLacking(needed);
        TriedAll(p, needs, valid, level, needed);
        ghost var decided0 := decided;
        level := Decide();
        assert used.Keys - decided < used.Keys - decided0;
      }
      WalkEnds(p, rank, used, decided, level, missing);
    }
  }

  lemma LevelFacts(p: Problem, used: Graph, decided: set<Node>, level: seq<Node>, needs: map<Node, set<Key>>,
                   needed: seq<Node>, made: set<Node>)
    requires OrderOk(used, decided, SetOf(level)) && DecidedOk(p, decided, made) && level != []
    requires forall n :: n in needed <==> n in level && n in needs
    ensures SetOf(needed) <= used.Keys && made <= used.Keys
    ensures level[0] in SetOf(level) && level[0] in used && level[0] !in decided
  {
  }

  lemma TriedAll(p: Problem, needs: map<Node, set<Key>>, valid: set<Key>, level: seq<Node>, needed: seq<Node>)
    requires Tried(p, needs, valid, SetOf(needed)) && forall n :: n in needed <==> n in level && n in needs
    ensures Tried(p, needs, valid, SetOf(level))
  {
  }

  lemma WalkEnds(p: Problem, rank: Node -> nat, used: Graph, decided: set<Node>, level: seq<Node>, made: set<Node>)
    requires Acyclic(p, rank) && GraphOk(p, used) && OrderOk(used, decided, SetOf(level)) && DecidedOk(p, decided, made)
    requires level == []
    ensures Solution(p, made) && decided == used.Keys
  {
    assert SetOf(level) == {};
    DecidedIsSolution(p, rank, used, decided, made);
    forall n | n in used
      ensures n in decided
    {
      AllDecided(p, rank, used, decided, n);
    }
  }

  lemma LevelStart(level: seq<Node>)
    ensures SetOf(level[0..]) + SetOf([]) == SetOf(level) && SetOf(level[..0]) == {} && NoDup<Node>([])
    ensures SetOf(level[0..]) !! SetOf([])
  {
  }

  lemma LevelStep(level: seq<Node>, i: nat)
    requires i < |level| && NoDup(level)
    ensures SetOf(level[i..]) == {level[i]} + SetOf(level[i + 1..]) && level[i] !in SetOf(level[i + 1..])
    ensures SetOf(level[..i + 1]) == SetOf(level[..i]) + {level[i]}
  {
  }

  lemma LevelEnd(level: seq<Node>)
    ensures SetOf(level[|level|..]) == {} && level[..|level|] == level
  {
  }

  lemma TriedLess(p: Problem, needs: map<Node, set<Key>>, valid: set<Key>, nodes: set<Node>, less: set<Node>)
    requires Tried(p, needs, valid, nodes) && less <= nodes
    ensures Tried(p, needs, valid, less)
  {
  }

  lemma TriedKept(p: Problem, needs: map<Node, set<Key>>, needs': map<Node, set<Key>>, valid: set<Key>,
                  nodes: set<Node>)
    requires Tried(p, needs, valid, nodes)
    requires forall n :: n in nodes ==> (n in needs' <==> n in needs) && Get(needs', n) == Get(needs, n)
    ensures Tried(p, needs', valid, nodes)
  {
  }

  lemma InGraph(p: Problem, used: Graph, decided: set<Node>, ready: set<Node>, x: Node)
    requires GraphOk(p, used) && OrderOk(used, decided, ready) && x in ready
    ensures x in used && x !in decided && used[x].Keys <= used.Keys && used[x].Keys * used.Keys == used[x].Keys
    ensures ready !! used[x].Keys
  {
    forall n | n in ready
      ensures n !in used[x]
    {
      assert x in Users(used, decided, n) <==> n in used[x];
    }
  }

  lemma UsesOf(p: Problem, used: Graph, n: Node)
    requires GraphOk(p, used) && n in used
    ensures used[n] == p.uses(n)
  {
  }

  lemma GrownElsewhere(m: map<Node, set<Key>>, uses: map<Node, set<Key>>)
    ensures forall n :: n !in uses ==>
      (n in Grown(m, uses, uses.Keys) <==> n in m) && Get(Grown(m, uses, uses.Keys), n) == Get(m, n)
  {
  }

  /** The children with one user left are those that come free. */
  lemma LastUsers(used: Graph, decided: set<Node>, users: map<Node, int>, x: Node)
    requires CountsOk(used, decided, users) && x in used && x !in decided && used[x].Keys <= used.Keys
    ensures used[x].Keys <= users.Keys && (set n | n in used[x] && users[n] == 1) == Freed(used, decided, x)
  {
    CountsAfter(used, decided, users, x);
  }

  lemma LackingTest(p: Problem, made: set<Node>, needs: map<Node, set<Key>>, valid: set<Key>, rebuilt: set<Node>,
                    n: Node)
    requires NeedsOk(p, made, needs) && Tried(p, needs, valid, {n}) && valid <= p.avail
    requires rebuilt == if p.rebuild then p.roots.Keys else {}
    ensures Lacking(p, made, n) <==> n in needs && !(n !in rebuilt && needs[n] != {} && needs[n] <= valid)
  {
  }

  lemma FetchedMore(p: Problem, made: set<Node>, store: set<Key>, fetched: set<Key>, x: Node)
    requires FetchedOk(p, made, store, fetched)
    ensures FetchedOk(p, made + {x}, store, fetched)
  {
    forall k | k in fetched
      ensures exists n :: Wants(p, made + {x}, n, k)
    {
      var n :| Wants(p, made, n, k);
      MadeOneMore(p, made, x, n);
      KeyOneMore(p, made, x, n, k);
      assert Wants(p, made + {x}, n, k);
    }
  }

  /** For each of these nodes, unless forced: the needed keys that are known are those to be had. */
  ghost predicate Tried(p: Problem, needs: map<Node, set<Key>>, valid: set<Key>, nodes: set<Node>) {
    forall n, k :: n in nodes && n in needs && !p.Forced(n) && k in needs[n] && k in p.avail ==> k in valid
  }

  lemma NeededIsAny(p: Problem, made: set<Node>, used: Graph, n: Node, k: Key)
    requires NeedsKey(p, made, n, k) && made <= used.Keys
    ensures k in p.RootKeys(n) || KeyUsedBy(p, used.Keys, n, k)
  {
  }

  lemma GraphClosed(p: Problem, used: Graph)
    requires GraphOk(p, used)
    ensures Closed(used.Keys, n => if n in used then used[n].Keys else {})
  {
  }

  lemma BatchFacts(batch: seq<Node>, queried: set<Node>, asked: set<Node>, nodes: set<Node>)
    requires BatchOk(batch, queried, asked, nodes)
    ensures asked == queried + SetOf(batch) && SetOf(batch) <= nodes
  {
  }

  lemma KnowMore(store: set<Key>, anyNeeds: map<Node, set<Key>>, queried: set<Node>, valid: set<Key>,
                 batch: seq<Node>, keys: set<Key>, valid': set<Key>)
    requires KnownOk(store, anyNeeds, queried, valid) && valid <= valid' && keys * store <= valid'
    requires forall n :: n in batch ==> Get(anyNeeds, n) <= keys
    ensures KnownOk(store, anyNeeds, queried + SetOf(batch), valid')
  {
  }

  method MissingForBuild(p: Problem, query: (nat, set<Key>) -> set<Key>, budget: nat,
                         ghost store: set<Key>, ghost nodes: set<Node>, ghost rank: Node -> nat)
    returns (missing: set<Node>)
    requires QueryOk(query, store, p.avail) && Inside(p, nodes) && Acyclic(p, rank)
    ensures Solution(p, missing)
    ensures forall other :: Solution(p, other) ==> missing == other
  {
    hide Solution, QueryOk, Inside, Acyclic;
    var walk := new BuildWalk(p, query, budget, store, nodes);
    walk.Run(rank);
    missing := walk.missing;
    forall other | Solution(p, other)
      ensures missing == other
    {
      SameSolution(p, rank, missing, other);
    }
  }

  lemma SameSolution(p: Problem, rank: Node -> nat, a: set<Node>, b: set<Node>)
    requires Acyclic(p, rank) && Solution(p, a) && Solution(p, b)
    ensures a == b
  {
    forall n
      ensures n in a <==> n in b
    {
      SolutionIsUnique(p, rank, a, b, n);
    }
  }
}
