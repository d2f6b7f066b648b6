/**
 * Which nodes a build must make, as a set of equations (what BuildWalk in
 * src/top-down.hh computes), and the bookkeeping of the walk as predicates on values.
 */
module BuildSpec {
  import opened TopDown

  type Graph = map<Node, map<Node, set<Key>>>

  /** `uses` gives the nodes a node depends on and the keys it needs from each; `avail` is what
      the store holds or can fetch. With `rebuild`, the roots are made whatever it holds. */
  datatype Problem = Problem(roots: map<Node, set<Key>>, rebuild: bool, uses: Node -> map<Node, set<Key>>,
                             avail: set<Key>)
  {
    predicate Forced(n: Node) { rebuild && n in roots }
    function RootKeys(n: Node): set<Key> { if n in roots && !rebuild then roots[n] else {} }
  }

  ghost predicate Uses(p: Problem, m: Node, n: Node) {
    n in p.uses(m)
  }

  ghost predicate UsedBy(p: Problem, made: set<Node>, n: Node) {
    exists m :: m in made && Uses(p, m, n)
  }

  /** Requested, or used by a node that is made. */
  ghost predicate Needed(p: Problem, made: set<Node>, n: Node) {
    n in p.roots || UsedBy(p, made, n)
  }

  ghost predicate UsesKey(p: Problem, m: Node, n: Node, k: Key) {
    Uses(p, m, n) && k in p.uses(m)[n]
  }

  ghost predicate KeyUsedBy(p: Problem, made: set<Node>, n: Node, k: Key) {
    exists m :: m in made && UsesKey(p, m, n, k)
  }

  /** The keys of a node that are requested, or that a node that is made needs. */
  ghost predicate NeedsKey(p: Problem, made: set<Node>, n: Node, k: Key) {
    k in p.RootKeys(n) || KeyUsedBy(p, made, n, k)
  }

  /** It is needed, and forced or without a needed key or with one that cannot be had. */
  ghost predicate Lacking(p: Problem, made: set<Node>, n: Node) {
    && Needed(p, made, n)
    && (p.Forced(n) || (forall k :: !NeedsKey(p, made, n, k)) || (exists k :: NeedsKey(p, made, n, k) && k !in p.avail))
  }

  /** A solution makes exactly what is lacking given what it makes. */
  ghost predicate Solution(p: Problem, made: set<Node>) {
    forall n :: n in made <==> Lacking(p, made, n)
  }

  /** Users come before what they use. */
  ghost predicate Acyclic(p: Problem, rank: Node -> nat) {
    forall m, n :: Uses(p, m, n) ==> rank(m) < rank(n)
  }

  /** Whether a node is lacking only depends on which of its users are made. */
  lemma LackingSame(p: Problem, made: set<Node>, made': set<Node>, n: Node)
    requires forall m :: Uses(p, m, n) ==> (m in made <==> m in made')
    ensures Needed(p, made, n) <==> Needed(p, made', n)
    ensures forall k :: NeedsKey(p, made, n, k) <==> NeedsKey(p, made', n, k)
    ensures Lacking(p, made, n) <==> Lacking(p, made', n)
  {
  }

  /** On an acyclic graph there is only one solution. */
  lemma {:induction false} SolutionIsUnique(p: Problem, rank: Node -> nat, a: set<Node>, b: set<Node>, n: Node)
    requires Acyclic(p, rank) && Solution(p, a) && Solution(p, b)
    ensures n in a <==> n in b
    decreases rank(n)
  {
    forall m | Uses(p, m, n)
      ensures m in a <==> m in b
    {
      SolutionIsUnique(p, rank, a, b, m);
    }
    LackingSame(p, a, b, n);
  }

  // ------------------------------------------------------- bookkeeping

  /** `used` has the roots and, with a node, all that it uses. */
  ghost predicate GraphOk(p: Problem, used: Graph) {
    && p.roots.Keys <= used.Keys
    && (forall n :: n in used ==> used[n] == p.uses(n) && used[n].Keys <= used.Keys)
  }

  /** The users of n not decided yet. */
  ghost function Users(used: Graph, decided: set<Node>, n: Node): set<Node> {
    set m | m in used && m !in decided && n in used[m]
  }

  ghost predicate CountsOk(used: Graph, decided: set<Node>, users: map<Node, int>) {
    && (forall n :: n in used && Users(used, {}, n) != {} ==> n in users)
    && (forall n :: n in users ==> users[n] == |Users(used, decided, n)|)
  }

  /** Nodes are decided after all their users; those that can be decided now are `ready`. */
  ghost predicate OrderOk(used: Graph, decided: set<Node>, ready: set<Node>) {
    && decided <= used.Keys
    && (forall n :: n in decided ==> Users(used, decided, n) == {})
    && (forall n :: n in ready <==> n in used && n !in decided && Users(used, decided, n) == {})
  }

  ghost predicate NeedsOk(p: Problem, made: set<Node>, needs: map<Node, set<Key>>) {
    && (forall n :: n in needs <==> Needed(p, made, n))
    && (forall n, k :: n in needs ==> (k in needs[n] <==> NeedsKey(p, made, n, k)))
  }

  ghost predicate DecidedOk(p: Problem, decided: set<Node>, made: set<Node>) {
    made <= decided && forall n :: n in decided ==> (n in made <==> Lacking(p, made, n))
  }

  /** With nothing left to decide, what was made is the solution. */
  lemma {:induction false} AllDecided(p: Problem, rank: Node -> nat, used: Graph, decided: set<Node>, n: Node)
    requires Acyclic(p, rank) && GraphOk(p, used) && OrderOk(used, decided, {})
    ensures n in used ==> n in decided
    decreases rank(n)
  {
    if n in used && n !in decided {
      assert Users(used, decided, n) != {};
      var m :| m in Users(used, decided, n);
      assert Uses(p, m, n);
      AllDecided(p, rank, used, decided, m);
    }
  }

  lemma DecidedIsSolution(p: Problem, rank: Node -> nat, used: Graph, decided: set<Node>, made: set<Node>)
    requires Acyclic(p, rank) && GraphOk(p, used) && OrderOk(used, decided, {}) && DecidedOk(p, decided, made)
    ensures Solution(p, made)
  {
    forall n
      ensures n in made <==> Lacking(p, made, n)
    {
      if Needed(p, made, n) && n !in p.roots {
        var m :| m in made && Uses(p, m, n);
        assert m in used && n in used[m];
      }
      if Needed(p, made, n) {
        AllDecided(p, rank, used, decided, n);
      }
    }
  }

  // ------------------------------------------------------- how it changes

  function Get(m: map<Node, set<Key>>, n: Node): set<Key> {
    if n in m then m[n] else {}
  }

  /** The keys of `uses`, for the nodes in `done`, added. */
  function Grown(m: map<Node, set<Key>>, uses: map<Node, set<Key>>, done: set<Node>): map<Node, set<Key>> {
    map n | n in m.Keys + done :: Get(m, n) + (if n in done then Get(uses, n) else {})
  }

  function Count(users: map<Node, int>, n: Node): int {
    if n in users then users[n] else 0
  }

  function Raised(users: map<Node, int>, done: set<Node>): map<Node, int> {
    map n | n in users.Keys + done :: Count(users, n) + (if n in done then 1 else 0)
  }

  function Lowered(users: map<Node, int>, done: set<Node>): map<Node, int> {
    map n | n in users :: users[n] - (if n in done then 1 else 0)
  }

  lemma GrownStep(m: map<Node, set<Key>>, uses: map<Node, set<Key>>, done: set<Node>, c: Node)
    requires c in uses && c !in done
    ensures Grown(m, uses, done + {c}) == Grown(m, uses, done)[c := Get(Grown(m, uses, done), c) + uses[c]]
  {
    var a, b := Grown(m, uses, done + {c}), Grown(m, uses, done)[c := Get(Grown(m, uses, done), c) + uses[c]];
    assert a.Keys == b.Keys;
    forall n | n in a
      ensures a[n] == b[n]
    {
    }
  }

  lemma NothingDone(m: map<Node, set<Key>>, uses: map<Node, set<Key>>, users: map<Node, int>)
    ensures Grown(m, uses, {}) == m && Raised(users, {}) == users && Lowered(users, {}) == users
  {
    forall n | n in m
      ensures Grown(m, uses, {})[n] == m[n]
    {
    }
  }

  lemma RaisedStep(users: map<Node, int>, done: set<Node>, c: Node)
    requires c !in done
    ensures Raised(users, done + {c}) == Raised(users, done)[c := Count(Raised(users, done), c) + 1]
  {
  }

  lemma LoweredStep(users: map<Node, int>, done: set<Node>, c: Node)
    requires c !in done && c in users
    ensures Lowered(users, done + {c}) == Lowered(users, done)[c := Lowered(users, done)[c] - 1]
  {
  }

  lemma MoreNeeds(p: Problem, made: set<Node>, needs: map<Node, set<Key>>, x: Node)
    requires NeedsOk(p, made, needs)
    ensures NeedsOk(p, made + {x}, Grown(needs, p.uses(x), p.uses(x).Keys))
  {
    var needs' := Grown(needs, p.uses(x), p.uses(x).Keys);
    forall n
      ensures n in needs' <==> Needed(p, made + {x}, n)
      ensures forall k :: n in needs' ==> (k in needs'[n] <==> NeedsKey(p, made + {x}, n, k))
    {
      assert UsedBy(p, made + {x}, n) <==> UsedBy(p, made, n) || Uses(p, x, n) by {
        MadeOneMore(p, made, x, n);
      }
      forall k | n in needs'
        ensures k in needs'[n] <==> NeedsKey(p, made + {x}, n, k)
      {
        KeyOneMore(p, made, x, n, k);
        if n !in needs {
          assert !Needed(p, made, n);
          KeyNeedsUser(p, made, n, k);
        }
      }
    }
  }

  lemma MadeOneMore(p: Problem, made: set<Node>, x: Node, n: Node)
    ensures UsedBy(p, made + {x}, n) <==> UsedBy(p, made, n) || Uses(p, x, n)
  {
  }

  lemma KeyOneMore(p: Problem, made: set<Node>, x: Node, n: Node, k: Key)
    ensures KeyUsedBy(p, made + {x}, n, k) <==> KeyUsedBy(p, made, n, k) || UsesKey(p, x, n, k)
  {
  }

  lemma KeyNeedsUser(p: Problem, made: set<Node>, n: Node, k: Key)
    ensures NeedsKey(p, made, n, k) ==> Needed(p, made, n)
  {
  }

  /** A ready node is no user of what is decided, nor of itself. */
  lemma NoLateUser(used: Graph, decided: set<Node>, ready: set<Node>, x: Node, n: Node)
    requires OrderOk(used, decided, ready) && x in ready && (n in decided || n == x)
    ensures n !in used[x]
  {
    assert x in Users(used, decided, n) <==> n in used[x];
  }

  /** Deciding a ready node leaves what was decided as it was. */
  lemma DecideOne(p: Problem, used: Graph, decided: set<Node>, ready: set<Node>, made: set<Node>, x: Node)
    requires GraphOk(p, used) && OrderOk(used, decided, ready) && DecidedOk(p, decided, made) && x in ready
    ensures DecidedOk(p, decided + {x}, if Lacking(p, made, x) then made + {x} else made)
  {
    hide Lacking, Needed, NeedsKey;
    var made' := if Lacking(p, made, x) then made + {x} else made;
    assert used[x] == p.uses(x) && x !in decided;
    forall n | n in decided + {x}
      ensures n in made' <==> Lacking(p, made', n)
    {
      NoLateUser(used, decided, ready, x, n);
      hide GraphOk, OrderOk;
      LackingSame(p, made, made', n);
    }
  }

  lemma UsersAfter(used: Graph, decided: set<Node>, x: Node, n: Node)
    requires x in used && x !in decided
    ensures Users(used, decided + {x}, n) == Users(used, decided, n) - {x}
    ensures n in used[x] ==> |Users(used, decided + {x}, n)| == |Users(used, decided, n)| - 1
    ensures n !in used[x] ==> Users(used, decided + {x}, n) == Users(used, decided, n)
  {
  }

  /** The nodes that deciding x makes ready. */
  ghost function Freed(used: Graph, decided: set<Node>, x: Node): set<Node>
    requires x in used
  {
    set n | n in used[x] && Users(used, decided + {x}, n) == {}
  }

  lemma OrderAfter(used: Graph, decided: set<Node>, ready: set<Node>, x: Node)
    requires OrderOk(used, decided, ready) && x in ready && used[x].Keys <= used.Keys
    ensures OrderOk(used, decided + {x}, ready - {x} + Freed(used, decided, x))
    ensures Freed(used, decided, x) !! ready
  {
    forall n
      ensures Users(used, decided + {x}, n) == Users(used, decided, n) - {x}
      ensures n in used[x] ==> x in Users(used, decided, n)
    {
      UsersAfter(used, decided, x, n);
    }
    NoLateUser(used, decided, ready, x, x);
  }

  lemma CountsAfter(used: Graph, decided: set<Node>, users: map<Node, int>, x: Node)
    requires CountsOk(used, decided, users) && x in used && x !in decided
    ensures used[x].Keys * used.Keys <= users.Keys
    ensures CountsOk(used, decided + {x}, Lowered(users, used[x].Keys))
    ensures forall n :: n in used[x] && n in used ==> users[n] > 0
    ensures forall n :: n in used[x] && n in used ==> (users[n] == 1 <==> Users(used, decided + {x}, n) == {})
  {
    forall n
      ensures n in used[x] ==> |Users(used, decided + {x}, n)| == |Users(used, decided, n)| - 1
      ensures n !in used[x] ==> Users(used, decided + {x}, n) == Users(used, decided, n)
      ensures n in used[x] ==> x in Users(used, {}, n)
    {
      UsersAfter(used, decided, x, n);
    }
  }

  // ------------------------------------------------------- collecting the graph

  /** Everything any user might need of a node. */
  ghost predicate AnyOk(p: Problem, used: Graph, anyNeeds: map<Node, set<Key>>) {
    forall n, k :: k in Get(anyNeeds, n) <==> k in p.RootKeys(n) || KeyUsedBy(p, used.Keys, n, k)
  }

  ghost predicate UsersOk(used: Graph, users: map<Node, int>) {
    forall n :: Count(users, n) == |Users(used, {}, n)| && (n in users <==> Users(used, {}, n) != {})
  }

  /** The part of the graph collected so far; `todo` has the rest of its edge. */
  ghost predicate PartOk(p: Problem, used: Graph, todo: seq<Node>) {
    && (forall n :: n in used ==> used[n] == p.uses(n))
    && (forall n, c :: n in used && c in used[n] ==> c in used || c in todo)
    && (forall n :: n in p.roots ==> n in used || n in todo)
    && (forall n :: n in used || n in todo ==> n in p.roots || Users(used, {}, n) != {})
  }

  lemma NewUsers(p: Problem, used: Graph, x: Node, n: Node)
    requires x !in used
    ensures var used' := used[x := p.uses(x)];
      Users(used', {}, n) == (if n in p.uses(x) then Users(used, {}, n) + {x} else Users(used, {}, n))
  {
  }

  lemma UsersRaised(p: Problem, used: Graph, users: map<Node, int>, x: Node)
    requires UsersOk(used, users) && x !in used
    ensures UsersOk(used[x := p.uses(x)], Raised(users, p.uses(x).Keys))
  {
    var used', users' := used[x := p.uses(x)], Raised(users, p.uses(x).Keys);
    forall n
      ensures Count(users', n) == |Users(used', {}, n)| && (n in users' <==> Users(used', {}, n) != {})
    {
      NewUsers(p, used, x, n);
      assert x !in Users(used, {}, n);
    }
  }

  lemma AnyGrown(p: Problem, used: Graph, anyNeeds: map<Node, set<Key>>, x: Node)
    requires AnyOk(p, used, anyNeeds) && x !in used
    ensures AnyOk(p, used[x := p.uses(x)], Grown(anyNeeds, p.uses(x), p.uses(x).Keys))
  {
    var any' := Grown(anyNeeds, p.uses(x), p.uses(x).Keys);
    assert used[x := p.uses(x)].Keys == used.Keys + {x};
    forall n, k
      ensures k in Get(any', n) <==> k in p.RootKeys(n) || KeyUsedBy(p, used.Keys + {x}, n, k)
    {
      KeyOneMore(p, used.Keys, x, n, k);
    }
  }

  lemma PartGrows(p: Problem, used: Graph, todo: seq<Node>, x: Node, todo': seq<Node>)
    requires PartOk(p, used, todo) && x in todo && x !in used
    requires forall n :: n in todo' ==> n in todo || n in p.uses(x)
    requires forall n :: n in todo || n in p.uses(x) ==> n == x || n in todo'
    ensures PartOk(p, used[x := p.uses(x)], todo')
  {
    forall n
      ensures Users(used, {}, n) <= Users(used[x := p.uses(x)], {}, n)
      ensures n in p.uses(x) ==> x in Users(used[x := p.uses(x)], {}, n)
    {
      NewUsers(p, used, x, n);
    }
  }

  lemma PartShrinks(p: Problem, used: Graph, todo: seq<Node>, rest: seq<Node>)
    requires PartOk(p, used, todo) && (forall n :: n in todo ==> n in used || n in rest)
    requires forall n :: n in rest ==> n in todo
    ensures PartOk(p, used, rest)
  {
  }

  lemma NothingUsed(p: Problem, roots: seq<Node>)
    requires forall n :: n in roots <==> n in p.roots
    ensures PartOk(p, map[], roots) && UsersOk(map[], map[])
  {
  }

  ghost predicate Requests(p: Problem, needs: map<Node, set<Key>>) {
    needs.Keys == p.roots.Keys && forall n :: n in needs ==> needs[n] == p.RootKeys(n)
  }

  /** The roots nothing else uses. */
  ghost predicate Unused(p: Problem, users: map<Node, int>, nodes: set<Node>) {
    forall n :: n in nodes <==> n in p.roots && n !in users
  }

  /** All nodes there are. */
  ghost predicate Inside(p: Problem, nodes: set<Node>) {
    p.roots.Keys <= nodes && forall n :: n in nodes ==> p.uses(n).Keys <= nodes
  }

  /** Before any node is made, the requests are all there is to need. */
  lemma StartNeeds(p: Problem, needs: map<Node, set<Key>>)
    requires Requests(p, needs)
    ensures NeedsOk(p, {}, needs) && AnyOk(p, map[], needs)
  {
  }

  /** All of the graph collected: the walk can start, from the roots without users. */
  lemma WalkStarts(p: Problem, used: Graph, users: map<Node, int>, ready: set<Node>)
    requires PartOk(p, used, []) && UsersOk(used, users) && Unused(p, users, ready)
    ensures GraphOk(p, used) && CountsOk(used, {}, users) && OrderOk(used, {}, ready)
    ensures DecidedOk(p, {}, {})
  {
    forall n | n in used
      ensures used[n].Keys <= used.Keys
    {
    }
  }
}
