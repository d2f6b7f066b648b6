/**
 * The order of a stream is exactly what keeps uploads from blocking each other for good:
 * a stream that lists references first never deadlocks beside others that do, and any other
 * stream can be caught by two well ordered ones.
 */
module UploadOrder {
  import opened Lists
  import opened UploadClaims
  import opened Uploads

  type Steps = seq<(UploadId, bool)>

  /** Somebody is not over, and whoever is not over waits. */
  ghost predicate Deadlocked(s: System, refs: Refs) {
    Going(s) && forall v :: 0 <= v < |s.uploads| && !s.uploads[v].phase.Over() ==> Blocked(s, refs, v)
  }

  ghost predicate AllOk(steps: Steps) {
    forall i :: 0 <= i < |steps| ==> steps[i].1
  }

  /** Well ordered streams that may bring paths of their own. */
  ghost predicate Beside(stream: seq<Path>, refs: Refs, others: seq<seq<Path>>, refs': Refs) {
    && (forall p :: p in stream ==> refs'(p) == refs(p))
    && (forall v :: 0 <= v < |others| ==> Ordered(others[v], refs'))
  }

  ghost predicate Safe(stream: seq<Path>, refs: Refs) {
    forall others: seq<seq<Path>>, refs': Refs, store: set<Path>, steps: Steps ::
      Beside(stream, refs, others, refs') ==> !Deadlocked(Run(Start([stream] + others, store), refs', steps), refs')
  }

  // ----------------------------------------------------------------- runs

  lemma {:induction false} RunMore(s: System, refs: Refs, steps: Steps, more: Steps)
    ensures Run(s, refs, steps + more) == Run(Run(s, refs, steps), refs, more)
    decreases |steps|
  {
    if steps == [] {
      assert steps + more == more;
    } else {
      var s' := if 0 <= steps[0].0 < |s.uploads| then Step(s, refs, steps[0].0, steps[0].1) else s;
      assert (steps + more)[1..] == steps[1..] + more;
      hide Step;
      RunMore(s', refs, steps[1..], more);
    }
  }

  lemma RunOne(s: System, refs: Refs, u: UploadId)
    requires 0 <= u < |s.uploads|
    ensures Run(s, refs, [(u, true)]) == Step(s, refs, u, true)
  {
    hide Step;
    assert [(u, true)][1..] == [];
  }

  lemma RunTwice(s: System, refs: Refs, u: UploadId)
    requires 0 <= u < |s.uploads|
    ensures |Step(s, refs, u, true).uploads| == |s.uploads|
    ensures Run(s, refs, [(u, true), (u, true)]) == Step(Step(s, refs, u, true), refs, u, true)
  {
    assert [(u, true), (u, true)] == [(u, true)] + [(u, true)];
    RunMore(s, refs, [(u, true)], [(u, true)]);
    RunOne(s, refs, u);
    RunOne(Step(s, refs, u, true), refs, u);
  }

  /** Waiting uploads that only each other could wake wait for good. */
  lemma {:induction false} DeadlockedForever(s: System, refs: Refs, more: Steps)
    requires Deadlocked(s, refs) && AllOk(more)
    ensures Run(s, refs, more) == s
    decreases |more|
  {
    if more != [] {
      DeadlockedForever(s, refs, more[1..]);
    }
  }

  // ----------------------------------------------------------------- the trap

  /** The path number `at` refers to r, which comes later; p and q are new. */
  datatype Trap = Trap(stream: seq<Path>, at: int, r: Path, p: Path, q: Path) {
    function X(): Path
      requires 0 <= at < |stream|
    {
      stream[at]
    }

    function Streams(): seq<seq<Path>>
      requires 0 <= at < |stream|
    {
      [[X(), p], [p, q, r]]
    }
  }

  ghost predicate TrapOk(t: Trap, refs: Refs) {
    && 0 <= t.at < |t.stream| && t.r in refs(t.X()) && t.r in t.stream && t.r != t.X() && t.r !in t.stream[..t.at]
    && t.p !in t.stream && t.q !in t.stream && t.p != t.q && t.p !in refs(t.X())
    && refs(t.p) == [t.X()] && refs(t.q) == [t.p]
  }

  /** A path longer than all of these. */
  lemma {:induction false} NewPath(paths: seq<Path>) returns (p: Path)
    ensures p !in paths && forall i :: 0 <= i < |paths| ==> |paths[i]| < |p|
  {
    p := "p";
    if paths != [] {
      var q := NewPath(paths[1..]);
      p := q + paths[0] + "p";
      forall i | 0 <= i < |paths|
        ensures |paths[i]| < |p|
      {
        if i > 0 {
          assert paths[i] == paths[1..][i - 1];
        }
      }
    }
  }

  /** Any stream out of order can be trapped, by streams in order. */
  lemma Lay(stream: seq<Path>, refs: Refs) returns (t: Trap, refs': Refs)
    requires !Ordered(stream, refs)
    ensures t.stream == stream && TrapOk(t, refs') && Beside(stream, refs, t.Streams(), refs')
  {
    var i, r :| 0 <= i < |stream| && r in refs(stream[i]) && r in stream && r != stream[i] && r !in stream[..i];
    var x := stream[i];
    var p := NewPath(stream + refs(x));
    var q := NewPath(stream + [p]);
    t := Trap(stream, i, r, p, q);
    refs' := z => if z == p then [x] else if z == q then [p] else refs(z);
    assert x in stream && p !in stream && p !in refs(x) && q !in stream;
    assert q != p by {
      assert p in stream + [p];
    }
    assert Ordered([x, p], refs');
    assert Ordered([p, q, r], refs');
  }

  // ----------------------------------------------------------------- into the trap

  ghost predicate AllPending(s: System) {
    forall c :: 0 <= c < |s.claims| ==> s.claims[c].status.Pending?
  }

  ghost predicate ActiveOk(s: System) {
    forall z :: z in s.active ==> 0 <= s.active[z] < |s.claims| && s.claims[s.active[z]].path == z
  }

  lemma NothingPruned(s: System)
    requires AllPending(s)
    ensures Pruned(s.active, Done(s)) == s.active
  {
  }

  /** A read while nothing is finished: nobody has claimed the path. */
  lemma ReadOwn(s: System, refs: Refs, u: UploadId)
    requires AllPending(s) && ActiveOk(s) && 0 <= u < |s.uploads| && s.uploads[u].phase.Reading?
    requires var up := s.uploads[u];
      0 <= up.next < |up.stream| && up.stream[up.next] !in up.stream[..up.next] && up.stream[up.next] !in s.active
    ensures var up, path := s.uploads[u], s.uploads[u].stream[s.uploads[u].next];
      Step(s, refs, u, true) == System(
        s.claims + [Claim(path, u, Pending)], s.active[path := |s.claims|],
        s.uploads[u := up.(next := up.next + 1, owned := up.owned + [|s.claims|])], s.store)
    ensures AllPending(Step(s, refs, u, true)) && ActiveOk(Step(s, refs, u, true))
  {
    NothingPruned(s);
  }

  /** Or somebody has. */
  lemma ReadTheirs(s: System, refs: Refs, u: UploadId)
    requires AllPending(s) && ActiveOk(s) && 0 <= u < |s.uploads| && s.uploads[u].phase.Reading?
    requires var up := s.uploads[u];
      0 <= up.next < |up.stream| && up.stream[up.next] !in up.stream[..up.next] && up.stream[up.next] in s.active
    ensures var up, path := s.uploads[u], s.uploads[u].stream[s.uploads[u].next];
      Step(s, refs, u, true) == s.(
        uploads := s.uploads[u := up.(next := up.next + 1, theirs := up.theirs + [(path, s.active[path])])])
  {
    NothingPruned(s);
  }

  function Ids(n: nat): seq<ClaimId> {
    seq(n, c => c)
  }

  /** The first upload has read n paths and the others none. */
  ghost predicate Alone(s: System, t: Trap, n: int)
    requires 0 <= t.at < |t.stream|
  {
    && 0 <= n <= |t.stream| && AllPending(s) && ActiveOk(s)
    && s.uploads == [New(t.stream).(next := n, owned := Ids(|s.claims|)), New(t.Streams()[0]), New(t.Streams()[1])]
    && forall z :: z in s.active <==> z in t.stream[..n]
  }

  lemma AloneStep(s: System, refs: Refs, t: Trap, n: int)
    requires 0 <= t.at < |t.stream| && Alone(s, t, n) && n < |t.stream|
    ensures Alone(Step(s, refs, 0, true), t, n + 1)
  {
    var path := t.stream[n];
    assert t.stream[..n + 1] == t.stream[..n] + [path];
    if path in t.stream[..n] {
      assert Step(s, refs, 0, true) == Put(s, 0, s.uploads[0].(next := n + 1));
    } else {
      AloneOwns(s, refs, t, n);
    }
  }

  lemma AloneOwns(s: System, refs: Refs, t: Trap, n: int)
    requires 0 <= t.at < |t.stream| && Alone(s, t, n) && n < |t.stream| && t.stream[n] !in t.stream[..n]
    ensures Alone(Step(s, refs, 0, true), t, n + 1)
  {
    hide Step;
    assert t.stream[..n + 1] == t.stream[..n] + [t.stream[n]];
    ReadOwn(s, refs, 0);
    assert Ids(|s.claims|) + [|s.claims|] == Ids(|s.claims| + 1);
  }

  lemma {:induction false} AloneRun(refs: Refs, t: Trap, n: int) returns (steps: Steps)
    requires 0 <= t.at < |t.stream| && 0 <= n <= |t.stream|
    ensures AllOk(steps) && Alone(Run(Start([t.stream] + t.Streams(), {}), refs, steps), t, n)
  {
    var s := Start([t.stream] + t.Streams(), {});
    if n == 0 {
      steps := [];
      assert Run(s, refs, steps) == s;
      assert t.stream[..0] == [] && Ids(0) == [];
      assert s.uploads == [New(t.stream), New(t.Streams()[0]), New(t.Streams()[1])];
    } else {
      var before := AloneRun(refs, t, n - 1);
      steps := before + [(0, true)];
      var s' := Run(s, refs, before);
      AloneStep(s', refs, t, n - 1);
      RunMore(s, refs, before, [(0, true)]);
      RunOne(s', refs, 0);
    }
  }

  /** The claims that will wait for each other: x is number `item` of the first upload's own, and
      r number `ref` of its references. */
  datatype Held = Held(x: ClaimId, p: ClaimId, q: ClaimId, r: ClaimId, item: int, ref: int)

  ghost predicate HeldOk(s: System, refs: Refs, t: Trap, h: Held)
    requires 0 <= t.at < |t.stream|
  {
    && 0 <= h.x < |s.claims| && s.claims[h.x].path == t.X() && s.claims[h.x].status.Pending?
    && 0 <= h.p < |s.claims| && s.claims[h.p].path == t.p && s.claims[h.p].status.Pending?
    && 0 <= h.r < |s.claims| && s.claims[h.r].path == t.r && s.claims[h.r].status.Pending?
    && 0 <= h.q < |s.claims| && s.claims[h.q].path == t.q
    && 0 <= h.ref < |refs(t.X())| && refs(t.X())[h.ref] == t.r
  }

  /** The first upload reads r as another's, and gets no further than x. */
  ghost predicate FirstOk(s: System, refs: Refs, t: Trap, h: Held)
    requires 0 <= t.at < |t.stream|
  {
    && |s.uploads| == 3
    && var up := s.uploads[0];
    && up.stream == t.stream && t.at < up.next <= |t.stream|
    && 0 <= h.item < |up.owned|
    && (forall m :: 0 <= m < |up.owned| ==>
        && 0 <= up.owned[m] < |s.claims| && up.owned[m] != h.p && up.owned[m] != h.r
        && (up.owned[m] == h.x <==> m == h.item))
    && up.theirs == (if t.r in t.stream[..up.next] then [(t.r, h.r)] else [])
    && (up.phase.Reading? ||
        (up.phase.Importing? && up.next == |t.stream| && 0 <= up.phase.item <= h.item && 0 <= up.phase.ref
         && (up.phase.item == h.item ==> up.phase.ref <= h.ref)))
  }

  /** Nobody else claims what the first upload has yet to read, except r. */
  ghost predicate UnreadOk(s: System, t: Trap, h: Held) {
    && |s.uploads| == 3 && ActiveOk(s) && t.r in s.active && s.active[t.r] == h.r
    && forall z :: z in s.active && z in t.stream && z != t.r ==> z in Seen(s.uploads[0])
  }

  predicate Waiting(up: Upload, stream: seq<Path>, owned: seq<ClaimId>, theirs: seq<(Path, ClaimId)>) {
    up == Upload(stream, |stream|, owned, theirs, [], up.phase) && (up.phase.Reading? || up.phase == Importing(0, 0))
  }

  ghost predicate Trapped(s: System, refs: Refs, t: Trap, h: Held) {
    && |s.uploads| == 3 && TrapOk(t, refs) && HeldOk(s, refs, t, h) && FirstOk(s, refs, t, h) && UnreadOk(s, t, h)
    && Waiting(s.uploads[1], t.Streams()[0], [h.p], [(t.X(), h.x)])
    && Waiting(s.uploads[2], t.Streams()[1], [h.q, h.r], [(t.p, h.p)])
  }

  /** The second upload has read its stream. */
  ghost function Second(s: System, t: Trap): System
    requires 0 <= t.at < |t.stream| && |s.uploads| == 3 && t.X() in s.active
  {
    var n := |s.claims|;
    System(
      s.claims + [Claim(t.p, 1, Pending)], s.active[t.p := n],
      [s.uploads[0], Upload([t.X(), t.p], 2, [n], [(t.X(), s.active[t.X()])], [], Reading), s.uploads[2]], s.store)
  }

  lemma SecondReads(s: System, refs: Refs, t: Trap)
    requires TrapOk(t, refs) && Alone(s, t, t.at + 1)
    ensures t.X() in s.active && Step(Step(s, refs, 1, true), refs, 1, true) == Second(s, t)
    ensures AllPending(Second(s, t)) && ActiveOk(Second(s, t))
  {
    hide Step;
    assert t.stream[..t.at + 1] == t.stream[..t.at] + [t.X()];
    assert t.p !in s.active;
    ReadTheirs(s, refs, 1);
    var s1 := Step(s, refs, 1, true);
    assert s1.uploads[1] == Upload([t.X(), t.p], 1, [], [(t.X(), s.active[t.X()])], [], Reading);
    ReadOwn(s1, refs, 1);
    var s2 := Step(s1, refs, 1, true);
    assert s2.uploads[1].owned == [|s.claims|];
    assert s2.uploads == Second(s, t).uploads;
  }

  /** And the third. */
  ghost function Third(s: System, t: Trap): System
    requires 0 <= t.at < |t.stream| && |s.uploads| == 3
  {
    var n := |s.claims|;
    System(
      s.claims + [Claim(t.q, 2, Pending), Claim(t.r, 2, Pending)], s.active[t.q := n][t.r := n + 1],
      [s.uploads[0], s.uploads[1], Upload([t.p, t.q, t.r], 3, [n, n + 1], [(t.p, n - 1)], [], Reading)], s.store)
  }

  lemma ThirdReads(s: System, refs: Refs, t: Trap)
    requires TrapOk(t, refs) && AllPending(s) && ActiveOk(s) && |s.uploads| == 3
    requires s.uploads[2] == New(t.Streams()[1]) && t.p in s.active && s.active[t.p] == |s.claims| - 1
    requires t.q !in s.active && t.r !in s.active
    ensures Step(Step(Step(s, refs, 2, true), refs, 2, true), refs, 2, true) == Third(s, t)
  {
    hide Step;
    ReadTheirs(s, refs, 2);
    var s1, n := Step(s, refs, 2, true), |s.claims|;
    assert s1.uploads[2] == Upload([t.p, t.q, t.r], 1, [], [(t.p, n - 1)], [], Reading);
    ReadOwn(s1, refs, 2);
    var s2 := Step(s1, refs, 2, true);
    assert s2.uploads[2].owned == [n];
    LastReads(s, s2, refs, t);
  }

  lemma LastReads(s: System, s': System, refs: Refs, t: Trap)
    requires TrapOk(t, refs) && AllPending(s') && ActiveOk(s') && |s.uploads| == 3 && t.r !in s.active
    requires var n, up := |s.claims|, Upload([t.p, t.q, t.r], 2, [|s.claims|], [(t.p, |s.claims| - 1)], [], Reading);
      s' == System(s.claims + [Claim(t.q, 2, Pending)], s.active[t.q := n], s.uploads[2 := up], s.store)
    ensures Step(s', refs, 2, true) == Third(s, t)
  {
    hide Step;
    ReadOwn(s', refs, 2);
    var s3, n := Step(s', refs, 2, true), |s.claims|;
    assert s3.uploads[2].owned == [n, n + 1];
    assert s3.uploads == Third(s, t).uploads && s3.claims == Third(s, t).claims;
  }

  lemma ThirdTrapped(s: System, refs: Refs, t: Trap) returns (h: Held)
    requires TrapOk(t, refs) && Alone(s, t, t.at + 1) && t.X() in s.active
    ensures Trapped(Third(Second(s, t), t), refs, t, h)
  {
    hide FirstOk, UnreadOk;
    var x, n := t.X(), |s.claims|;
    var j :| 0 <= j < |refs(x)| && refs(x)[j] == t.r;
    h := Held(s.active[x], n, n + 1, n + 2, s.active[x], j);
    ThirdFirst(s, refs, t, h);
  }

  lemma ThirdFirst(s: System, refs: Refs, t: Trap, h: Held)
    requires TrapOk(t, refs) && Alone(s, t, t.at + 1) && t.X() in s.active
    requires h == Held(s.active[t.X()], |s.claims|, |s.claims| + 1, |s.claims| + 2, s.active[t.X()], h.ref)
    ensures FirstOk(Third(Second(s, t), t), refs, t, h) && UnreadOk(Third(Second(s, t), t), t, h)
  {
    assert t.stream[..t.at + 1] == t.stream[..t.at] + [t.X()];
    var s' := Third(Second(s, t), t);
    assert FirstOk(s', refs, t, h) by {
      hide UnreadOk;
    }
    hide FirstOk;
    assert UnreadOk(s', t, h);
  }

  lemma Spring(s: System, refs: Refs, t: Trap) returns (steps: Steps, h: Held)
    requires TrapOk(t, refs) && Alone(s, t, t.at + 1)
    ensures AllOk(steps) && Trapped(Run(s, refs, steps), refs, t, h)
  {
    hide Step, Run, Trapped;
    SecondReads(s, refs, t);
    var s2 := Second(s, t);
    assert t.stream[..t.at + 1] == t.stream[..t.at] + [t.X()];
    assert t.r !in s.active && t.q !in s.active;
    ThirdReads(s2, refs, t);
    h := ThirdTrapped(s, refs, t);
    steps := [(1, true), (1, true)] + ([(2, true), (2, true)] + [(2, true)]);
    RunTwice(s, refs, 1);
    RunTwice(s2, refs, 2);
    RunMore(s, refs, [(1, true), (1, true)], [(2, true), (2, true)] + [(2, true)]);
    RunMore(s2, refs, [(2, true), (2, true)], [(2, true)]);
    RunTwice(Step(s2, refs, 2, true), refs, 2);
    RunOne(Step(Step(s2, refs, 2, true), refs, 2, true), refs, 2);
  }

  // ----------------------------------------------------------------- caught for good

  /** The two ordered uploads wait as soon as they have read their streams. */
  lemma OthersWait(s: System, refs: Refs, t: Trap, h: Held, u: UploadId)
    requires Trapped(s, refs, t, h) && 1 <= u <= 2
    ensures s.uploads[u].phase.Importing? ==> Blocked(s, refs, u)
    ensures Step(s, refs, u, true) == Put(s, u, s.uploads[u].(phase := Importing(0, 0)))
    ensures Trapped(Step(s, refs, u, true), refs, t, h)
  {
    hide FirstOk, UnreadOk;
    assert s.uploads[u := s.uploads[u]] == s.uploads;
    var s' := Step(s, refs, u, true);
    assert s' == Put(s, u, s.uploads[u].(phase := Importing(0, 0)));
    hide Step;
    assert s'.uploads[0] == s.uploads[0];
    FirstSame(s, s', refs, t, h);
  }

  lemma FirstSame(s: System, s': System, refs: Refs, t: Trap, h: Held)
    requires 0 <= t.at < |t.stream| && FirstOk(s, refs, t, h) && UnreadOk(s, t, h)
    requires |s'.uploads| == 3 && s'.uploads[0] == s.uploads[0] && s'.claims == s.claims && s'.active == s.active
    ensures FirstOk(s', refs, t, h) && UnreadOk(s', t, h)
  {
  }

  /** The rest of the trap stays while the first upload steps. */
  lemma HeldSame(s: System, s': System, refs: Refs, t: Trap, h: Held)
    requires Trapped(s, refs, t, h) && |s'.uploads| == 3
    requires s'.uploads[1] == s.uploads[1] && s'.uploads[2] == s.uploads[2] && |s.claims| <= |s'.claims|
    requires forall c :: 0 <= c < |s.claims| ==>
      s'.claims[c].path == s.claims[c].path && (c in {h.x, h.p, h.r} ==> s'.claims[c].status == s.claims[c].status)
    requires FirstOk(s', refs, t, h) && UnreadOk(s', t, h)
    ensures Trapped(s', refs, t, h)
  {
    hide FirstOk, UnreadOk;
  }

  ghost function ReadLeft(up: Upload): int {
    if up.phase.Reading? then |up.stream| - up.next + 1 else 0
  }

  /** The first upload reads on: r is another's, and nothing else is. */
  lemma ReadFinds(s: System, refs: Refs, t: Trap, h: Held)
    requires Trapped(s, refs, t, h) && s.uploads[0].next < |t.stream|
    ensures var active, up := Pruned(s.active, Done(s)), s.uploads[0];
      && t.r in active && active[t.r] == h.r
      && (t.stream[up.next] in active && t.stream[up.next] !in t.stream[..up.next] ==> t.stream[up.next] == t.r)
  {
    hide Waiting;
  }

  lemma FirstReads(s: System, refs: Refs, t: Trap, h: Held)
    requires Trapped(s, refs, t, h) && s.uploads[0].phase.Reading? && s.uploads[0].next < |t.stream|
    ensures Trapped(ReadNext(s, 0), refs, t, h)
  {
    FirstOkReads(s, refs, t, h);
    UnreadReads(s, refs, t, h);
    hide Waiting, UnreadOk, FirstOk, HeldOk, Done, Pruned;
    HeldSame(s, ReadNext(s, 0), refs, t, h);
  }

  lemma FirstOkReads(s: System, refs: Refs, t: Trap, h: Held)
    requires Trapped(s, refs, t, h) && s.uploads[0].phase.Reading? && s.uploads[0].next < |t.stream|
    ensures FirstOk(ReadNext(s, 0), refs, t, h)
  {
    hide Waiting, UnreadOk, Done, Pruned;
    ReadFinds(s, refs, t, h);
    var up := s.uploads[0];
    assert t.stream[..up.next + 1] == t.stream[..up.next] + [t.stream[up.next]];
  }

  lemma UnreadReads(s: System, refs: Refs, t: Trap, h: Held)
    requires Trapped(s, refs, t, h) && s.uploads[0].next < |t.stream|
    ensures UnreadOk(ReadNext(s, 0), t, h)
  {
    hide Waiting;
    ReadFinds(s, refs, t, h);
    var up := s.uploads[0];
    assert t.stream[..up.next + 1] == t.stream[..up.next] + [t.stream[up.next]];
  }

  lemma FirstTurns(s: System, refs: Refs, t: Trap, h: Held)
    requires Trapped(s, refs, t, h) && s.uploads[0].phase.Reading? && s.uploads[0].next == |t.stream|
    ensures Trapped(Put(s, 0, s.uploads[0].(phase := Importing(0, 0))), refs, t, h)
  {
    hide Waiting;
    HeldSame(s, Put(s, 0, s.uploads[0].(phase := Importing(0, 0))), refs, t, h);
  }

  lemma FirstReadsOn(s: System, refs: Refs, t: Trap, h: Held)
    requires Trapped(s, refs, t, h) && s.uploads[0].phase.Reading?
    ensures var s' := Step(s, refs, 0, true);
      Trapped(s', refs, t, h) && 0 <= ReadLeft(s'.uploads[0]) < ReadLeft(s.uploads[0])
    ensures var s' := Step(s, refs, 0, true); s'.uploads[1] == s.uploads[1] && s'.uploads[2] == s.uploads[2]
  {
    hide HeldOk, Waiting, UnreadOk, Done, Pruned;
    if s.uploads[0].next < |t.stream| {
      FirstReads(s, refs, t, h);
    } else {
      FirstTurns(s, refs, t, h);
    }
  }

  /** It cannot get past r. */
  lemma NotPast(s: System, refs: Refs, t: Trap, h: Held)
    requires Trapped(s, refs, t, h) && s.uploads[0].phase.Importing? && !Blocked(s, refs, 0)
    ensures s.uploads[0].phase.item == h.item ==> s.uploads[0].phase.ref < h.ref
    ensures WaitsFor(s, refs, 0).None?
  {
    var up := s.uploads[0];
    assert t.stream[..up.next] == t.stream;
    assert up.theirs == [(t.r, h.r)];
    forall z
      ensures Theirs(up.theirs, z) == if z == t.r then Some(h.r) else None
    {
      assert up.theirs[..0] == [];
    }
    hide UnreadOk, Waiting, Theirs;
  }

  lemma FirstImports(s: System, refs: Refs, t: Trap, h: Held)
    requires Trapped(s, refs, t, h) && s.uploads[0].phase.Importing? && !Blocked(s, refs, 0)
    ensures Trapped(Step(s, refs, 0, true), refs, t, h)
    ensures var s' := Step(s, refs, 0, true);
      s'.uploads == s.uploads[0 := s'.uploads[0]] && s'.uploads[0].phase.Importing? && ImportNears(s, s', refs, h)
  {
    NotPast(s, refs, t, h);
    ImportSteps(s, refs, t, h);
    hide Step, Blocked, WaitsFor, FirstOk, UnreadOk, Waiting;
    HeldSame(s, Step(s, refs, 0, true), refs, t, h);
  }

  ghost predicate ImportNears(s: System, s': System, refs: Refs, h: Held) {
    && s.uploads != [] && s'.uploads != []
    && var items, items' := ItemsLeft(s.uploads[0], h), ItemsLeft(s'.uploads[0], h);
    items' == items - 1 || (items' == items && 0 <= RefsLeft(s', refs) < RefsLeft(s, refs))
  }

  lemma ImportSteps(s: System, refs: Refs, t: Trap, h: Held)
    requires Trapped(s, refs, t, h) && s.uploads[0].phase.Importing? && WaitsFor(s, refs, 0).None?
    requires s.uploads[0].phase.item == h.item ==> s.uploads[0].phase.ref < h.ref
    ensures var s' := Step(s, refs, 0, true);
      && FirstOk(s', refs, t, h) && UnreadOk(s', t, h) && ImportNears(s, s', refs, h)
      && s'.uploads == s.uploads[0 := s'.uploads[0]] && s'.uploads[0].phase.Importing? && |s'.claims| == |s.claims|
      && forall c :: 0 <= c < |s.claims| ==>
        s'.claims[c].path == s.claims[c].path && (c in {h.x, h.p, h.r} ==> s'.claims[c].status == s.claims[c].status)
  {
    hide Waiting, WaitsFor;
  }

  ghost function ItemsLeft(up: Upload, h: Held): int {
    if up.phase.Importing? then h.item - up.phase.item else 0
  }

  ghost function RefsLeft(s: System, refs: Refs): int {
    if |s.uploads| == 0 then 0
    else
      var up := s.uploads[0];
      if up.phase.Importing? && 0 <= up.phase.item < |up.owned| && 0 <= up.owned[up.phase.item] < |s.claims|
      then |refs(s.claims[up.owned[up.phase.item]].path)| - up.phase.ref else 0
  }

  /** Reading first, then items, then references. */
  ghost function Far(s: System, refs: Refs, h: Held): (r: (int, int, int))
    requires |s.uploads| == 3
  {
    (ReadLeft(s.uploads[0]) + ReadLeft(s.uploads[1]) + ReadLeft(s.uploads[2]),
     ItemsLeft(s.uploads[0], h), RefsLeft(s, refs))
  }

  predicate Nearer(a: (int, int, int), b: (int, int, int)) {
    || 0 <= a.0 < b.0
    || (a.0 == b.0 && 0 <= a.1 < b.1)
    || (a.0 == b.0 && a.1 == b.1 && 0 <= a.2 < b.2)
  }

  /** If the others wait and not all three do, the first does not. */
  lemma FirstSteps(s: System, refs: Refs, t: Trap, h: Held)
    requires Trapped(s, refs, t, h) && !Deadlocked(s, refs)
    requires s.uploads[0].phase.Importing? && s.uploads[1].phase.Importing? && s.uploads[2].phase.Importing?
    ensures !Blocked(s, refs, 0)
  {
    OthersWait(s, refs, t, h, 1);
    OthersWait(s, refs, t, h, 2);
    hide Step, Blocked, FirstOk, HeldOk, UnreadOk, TrapOk;
  }

  lemma Advance(s: System, refs: Refs, t: Trap, h: Held) returns (u: UploadId)
    requires Trapped(s, refs, t, h) && !Deadlocked(s, refs)
    ensures 0 <= u < 3
    ensures var s' := Step(s, refs, u, true); Trapped(s', refs, t, h) && Nearer(Far(s', refs, h), Far(s, refs, h))
  {
    u := 0;
    hide Step, Blocked, Deadlocked, HeldOk, UnreadOk, TrapOk;
    if s.uploads[1].phase.Reading? {
      u := 1;
      OthersWait(s, refs, t, h, 1);
    } else if s.uploads[2].phase.Reading? {
      u := 2;
      OthersWait(s, refs, t, h, 2);
    } else if s.uploads[0].phase.Reading? {
      FirstReadsOn(s, refs, t, h);
    } else {
      FirstSteps(s, refs, t, h);
      FirstImports(s, refs, t, h);
    }
  }

  /** In the end all three wait. */
  lemma {:induction false} Close(s: System, refs: Refs, t: Trap, h: Held) returns (steps: Steps)
    requires Trapped(s, refs, t, h)
    ensures AllOk(steps) && Deadlocked(Run(s, refs, steps), refs)
    decreases Far(s, refs, h).0, Far(s, refs, h).1, Far(s, refs, h).2
  {
    hide Far, Step, Deadlocked;
    steps := [];
    if !Deadlocked(s, refs) {
      var u := Advance(s, refs, t, h);
      var rest := Close(Step(s, refs, u, true), refs, t, h);
      steps := [(u, true)] + rest;
      RunMore(s, refs, [(u, true)], rest);
      RunOne(s, refs, u);
    }
  }

  // ----------------------------------------------------------------- theorems

  /** Whatever stream is out of order, two streams in order and a run without a failure leave all
      three waiting for good. */
  lemma UnorderedCanDeadlock(stream: seq<Path>, refs: Refs) returns (others: seq<seq<Path>>, refs': Refs, steps: Steps)
    requires !Ordered(stream, refs)
    ensures |others| == 2 && Beside(stream, refs, others, refs') && AllOk(steps)
    ensures Deadlocked(Run(Start([stream] + others, {}), refs', steps), refs')
  {
    hide Deadlocked, Run, Trapped, Alone, Beside;
    var t;
    t, refs' := Lay(stream, refs);
    others := t.Streams();
    var s := Start([stream] + others, {});
    var alone := AloneRun(refs', t, t.at + 1);
    var spring, h := Spring(Run(s, refs', alone), refs', t);
    var close := Close(Run(Run(s, refs', alone), refs', spring), refs', t, h);
    steps := alone + (spring + close);
    RunMore(s, refs', alone, spring + close);
    RunMore(Run(s, refs', alone), refs', spring, close);
  }

  /** A stream never deadlocks beside streams in order exactly if it is in order itself. */
  lemma SafeExactlyIfOrdered(stream: seq<Path>, refs: Refs)
    ensures Safe(stream, refs) <==> Ordered(stream, refs)
  {
    if !Ordered(stream, refs) {
      var others, refs', steps := UnorderedCanDeadlock(stream, refs);
      assert Beside(stream, refs, others, refs');
    } else {
      forall others: seq<seq<Path>>, refs': Refs, store: set<Path>, steps: Steps | Beside(stream, refs, others, refs')
        ensures !Deadlocked(Run(Start([stream] + others, store), refs', steps), refs')
      {
        OrderedIsSafe(stream, refs, others, refs', store, steps);
      }
    }
  }

  lemma OrderedIsSafe(stream: seq<Path>, refs: Refs, others: seq<seq<Path>>, refs': Refs, store: set<Path>,
                      steps: Steps)
    requires Ordered(stream, refs) && Beside(stream, refs, others, refs')
    ensures !Deadlocked(Run(Start([stream] + others, store), refs', steps), refs')
  {
    assert Ordered(stream, refs');
    hide Run, Blocked, Ordered, Going;
    var streams := [stream] + others;
    if Going(Run(Start(streams, store), refs', steps)) {
      var u := NeverStuck(streams, store, refs', steps);
    }
  }
}
