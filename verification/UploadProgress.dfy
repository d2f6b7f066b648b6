/**
 * Every upload ends: each step that is not blocked uses up a bounded amount of work.
 */
module UploadProgress {
  import opened UploadClaims
  import opened Uploads

  // ----------------------------------------------------------------- work left

  function ReadCost(stream: seq<Path>, refs: Refs): nat {
    if stream == [] then 0 else |refs(stream[0])| + 2 + ReadCost(stream[1..], refs)
  }

  function OwnCost(claims: seq<Claim>, owned: seq<ClaimId>, refs: Refs): nat {
    if owned == [] then 0
    else
      OwnCost(claims, owned[..|owned| - 1], refs)
      + (var c := owned[|owned| - 1]; if 0 <= c < |claims| then |refs(claims[c].path)| + 1 else 1)
  }

  /** Steps an upload may still take. */
  function Left(claims: seq<Claim>, up: Upload, refs: Refs): int {
    match up.phase
    case Reading =>
      (if 0 <= up.next <= |up.stream| then ReadCost(up.stream[up.next..], refs) else 0)
      + OwnCost(claims, up.owned, refs) + |up.theirs| + 3
    case Importing(item, ref) =>
      OwnCost(claims, up.owned, refs) - (if 0 <= item <= |up.owned| then OwnCost(claims, up.owned[..item], refs) else 0)
      - ref + |up.theirs| + 2
    case Awaiting(at) => |up.theirs| - at + 1
    case _ => 0
  }

  function Work(claims: seq<Claim>, uploads: seq<Upload>, refs: Refs): int {
    if uploads == [] then 0
    else Work(claims, uploads[..|uploads| - 1], refs) + Left(claims, uploads[|uploads| - 1], refs)
  }

  ghost predicate SamePaths(claims: seq<Claim>, claims': seq<Claim>) {
    |claims| <= |claims'| && forall c :: 0 <= c < |claims| ==> claims'[c].path == claims[c].path
  }

  ghost predicate Within(claims: seq<Claim>, owned: seq<ClaimId>) {
    forall k :: 0 <= k < |owned| ==> 0 <= owned[k] < |claims|
  }

  lemma {:induction false} OwnCostSame(claims: seq<Claim>, claims': seq<Claim>, owned: seq<ClaimId>, refs: Refs)
    requires SamePaths(claims, claims') && Within(claims, owned)
    ensures OwnCost(claims', owned, refs) == OwnCost(claims, owned, refs)
  {
    if owned != [] {
      assert owned[..|owned| - 1] <= owned;
      OwnCostSame(claims, claims', owned[..|owned| - 1], refs);
    }
  }

  lemma {:induction false} OwnCostMonotone(claims: seq<Claim>, owned: seq<ClaimId>, item: int, refs: Refs)
    requires 0 <= item < |owned| && Within(claims, owned)
    ensures OwnCost(claims, owned[..item + 1], refs) ==
      OwnCost(claims, owned[..item], refs) + |refs(claims[owned[item]].path)| + 1
    ensures OwnCost(claims, owned[..item + 1], refs) <= OwnCost(claims, owned, refs)
    decreases |owned|
  {
    assert owned[..item + 1][..item] == owned[..item];
    if item + 1 < |owned| {
      var front := owned[..|owned| - 1];
      OwnCostMonotone(claims, front, item, refs);
      assert front[..item + 1] == owned[..item + 1];
    } else {
      assert owned[..item + 1] == owned;
    }
  }

  lemma LeftSame(claims: seq<Claim>, claims': seq<Claim>, up: Upload, refs: Refs)
    requires SamePaths(claims, claims') && Within(claims, up.owned)
    ensures Left(claims', up, refs) == Left(claims, up, refs)
  {
    OwnCostSame(claims, claims', up.owned, refs);
    if up.phase.Importing? && 0 <= up.phase.item <= |up.owned| {
      OwnCostSame(claims, claims', up.owned[..up.phase.item], refs);
    }
  }

  /** Only the upload that stepped changes its share of the work. */
  lemma {:induction false} WorkAfter(claims: seq<Claim>, claims': seq<Claim>, uploads: seq<Upload>, u: UploadId,
                                     up: Upload, refs: Refs)
    requires SamePaths(claims, claims') && (forall v :: 0 <= v < |uploads| ==> Within(claims, uploads[v].owned))
    requires 0 <= u < |uploads|
    ensures Work(claims', uploads[u := up], refs)
         == Work(claims, uploads, refs) - Left(claims, uploads[u], refs) + Left(claims', up, refs)
  {
    var n := |uploads| - 1;
    if u < n {
      WorkAfter(claims, claims', uploads[..n], u, up, refs);
      assert uploads[u := up][..n] == uploads[..n][u := up];
      LeftSame(claims, claims', uploads[n], refs);
    } else {
      assert uploads[u := up][..n] == uploads[..n];
      WorkSame(claims, claims', uploads[..n], refs);
    }
  }

  lemma {:induction false} WorkSame(claims: seq<Claim>, claims': seq<Claim>, uploads: seq<Upload>, refs: Refs)
    requires SamePaths(claims, claims') && (forall v :: 0 <= v < |uploads| ==> Within(claims, uploads[v].owned))
    ensures Work(claims', uploads, refs) == Work(claims, uploads, refs)
  {
    if uploads != [] {
      var n := |uploads| - 1;
      WorkSame(claims, claims', uploads[..n], refs);
      LeftSame(claims, claims', uploads[n], refs);
    }
  }

  lemma {:induction false} WorkNonNegative(claims: seq<Claim>, uploads: seq<Upload>, refs: Refs)
    requires forall v :: 0 <= v < |uploads| ==> Left(claims, uploads[v], refs) >= 0
    ensures Work(claims, uploads, refs) >= 0
  {
    if uploads != [] {
      WorkNonNegative(claims, uploads[..|uploads| - 1], refs);
    }
  }

  lemma LeftNonNegative(s: System, refs: Refs, u: UploadId)
    requires Inv(s, refs) && 0 <= u < |s.uploads|
    ensures Left(s.claims, s.uploads[u], refs) >= 0 && Within(s.claims, s.uploads[u].owned)
    ensures !s.uploads[u].phase.Over() ==> Left(s.claims, s.uploads[u], refs) > 0
  {
    var up := s.uploads[u];
    assert UploadOk(s, refs, u);
    if up.phase.Importing? {
      if up.phase.item < |up.owned| {
        OwnCostMonotone(s.claims, up.owned, up.phase.item, refs);
      } else {
        assert up.owned[..|up.owned|] == up.owned;
      }
    }
  }

  ghost function WorkLeft(s: System, refs: Refs): int {
    Work(s.claims, s.uploads, refs)
  }

  /** Upload u goes on or fails: it is not over, and goes on only when it does not wait. */
  ghost predicate CanStep(s: System, refs: Refs, u: UploadId, ok: bool) {
    0 <= u < |s.uploads| && !s.uploads[u].phase.Over() && (ok ==> !Blocked(s, refs, u))
  }

  /** The stepping upload's own share shrinks. */
  lemma LeftShrinks(s: System, refs: Refs, u: UploadId, ok: bool)
    requires Inv(s, refs) && CanStep(s, refs, u, ok)
    ensures var s' := Step(s, refs, u, ok);
      && s'.uploads == s.uploads[u := s'.uploads[u]] && SamePaths(s.claims, s'.claims)
      && Left(s'.claims, s'.uploads[u], refs) < Left(s.claims, s.uploads[u], refs)
  {
    var s', up := Step(s, refs, u, ok), s.uploads[u];
    LeftNonNegative(s, refs, u);
    assert UploadOk(s, refs, u);
    hide Ordered, OwnedOk, OwnOrderOk, TheirsOk, SeenOk, WaitedOk, ClaimsOk, Inv;
    if !ok {
      assert s' == Fail(s, u);
    } else if WaitsFor(s, refs, u).Some? && StatusOf(s, WaitsFor(s, refs, u).value).Dropped? {
      assert s' == Fail(s, u);
    } else if up.phase.Reading? {
      if up.next < |up.stream| {
        ReadShrinks(s, u, refs);
      } else {
        assert up.owned[..0] == [];
      }
    } else if up.phase.Importing? {
      hide Blocked, WaitsFor, StatusOf;
      ImportShrinks(s, u, refs);
    }
  }

  lemma ImportShrinks(s: System, u: UploadId, refs: Refs)
    requires 0 <= u < |s.uploads| && s.uploads[u].phase.Importing? && Within(s.claims, s.uploads[u].owned)
    requires PhaseOk(s, refs, u)
    requires !Blocked(s, refs, u) && (WaitsFor(s, refs, u).Some? ==> !StatusOf(s, WaitsFor(s, refs, u).value).Dropped?)
    ensures var s' := Step(s, refs, u, true);
      && s'.uploads == s.uploads[u := s'.uploads[u]] && SamePaths(s.claims, s'.claims)
      && Left(s'.claims, s'.uploads[u], refs) < Left(s.claims, s.uploads[u], refs)
  {
    var s', up := Step(s, refs, u, true), s.uploads[u];
    hide Blocked, WaitsFor, StatusOf;
    if up.phase.item == |up.owned| {
      assert up.owned[..|up.owned|] == up.owned;
    } else if up.phase.ref == |refs(Item(s, u))| {
      OwnCostMonotone(s.claims, up.owned, up.phase.item, refs);
      LeftSame(s.claims, s'.claims, s'.uploads[u], refs);
    }
  }

  lemma ReadShrinks(s: System, u: UploadId, refs: Refs)
    requires 0 <= u < |s.uploads| && s.uploads[u].phase.Reading? && Within(s.claims, s.uploads[u].owned)
    requires 0 <= s.uploads[u].next < |s.uploads[u].stream|
    ensures var s' := ReadNext(s, u); Left(s'.claims, s'.uploads[u], refs) < Left(s.claims, s.uploads[u], refs)
  {
    var s', up := ReadNext(s, u), s.uploads[u];
    var up' := s'.uploads[u];
    assert up.stream[up.next..][1..] == up.stream[up.next + 1..];
    OwnCostSame(s.claims, s'.claims, up.owned, refs);
    if up'.owned != up.owned {
      assert up'.owned[..|up.owned|] == up.owned;
    }
  }

  lemma WorkShrinks(s: System, refs: Refs, u: UploadId, ok: bool)
    requires Inv(s, refs) && CanStep(s, refs, u, ok)
    ensures 0 <= WorkLeft(Step(s, refs, u, ok), refs) < WorkLeft(s, refs)
  {
    var s' := Step(s, refs, u, ok);
    forall v | 0 <= v < |s.uploads|
      ensures Within(s.claims, s.uploads[v].owned)
    {
      LeftNonNegative(s, refs, v);
    }
    LeftShrinks(s, refs, u, ok);
    WorkAfter(s.claims, s'.claims, s.uploads, u, s'.uploads[u], refs);
    StepKeeps(s, refs, u, ok);
    hide Inv, Step;
    WorkIsNatural(s', refs);
  }

  lemma WorkIsNatural(s: System, refs: Refs)
    requires Inv(s, refs)
    ensures WorkLeft(s, refs) >= 0
  {
    hide Inv;
    forall v | 0 <= v < |s.uploads|
      ensures Left(s.claims, s.uploads[v], refs) >= 0
    {
      LeftNonNegative(s, refs, v);
    }
    WorkNonNegative(s.claims, s.uploads, refs);
  }

  /** A run in which every step is one that an upload can take. */
  ghost predicate Lively(s: System, refs: Refs, steps: seq<(UploadId, bool)>)
    decreases |steps|
  {
    steps == [] ||
    (CanStep(s, refs, steps[0].0, steps[0].1) && Lively(Step(s, refs, steps[0].0, steps[0].1), refs, steps[1..]))
  }

  /** Every run is short, whoever steps and whatever fails, and a run that cannot go on has ended
      all uploads. */
  lemma {:induction false} EveryRunEnds(s: System, refs: Refs, steps: seq<(UploadId, bool)>)
    requires Inv(s, refs) && Lively(s, refs, steps)
    ensures |steps| <= WorkLeft(s, refs)
    ensures (forall u :: !CanStep(Run(s, refs, steps), refs, u, true)) <==> !Going(Run(s, refs, steps))
    decreases |steps|
  {
    hide Inv, Step, Blocked, WorkLeft;
    if steps == [] {
      WorkIsNatural(s, refs);
      if Going(s) {
        var u := NoDeadlock(s, refs);
        assert CanStep(s, refs, u, true);
      }
    } else {
      WorkShrinks(s, refs, steps[0].0, steps[0].1);
      StepKeeps(s, refs, steps[0].0, steps[0].1);
      EveryRunEnds(Step(s, refs, steps[0].0, steps[0].1), refs, steps[1..]);
    }
  }

  /** And such an end is never out of reach. */
  lemma {:induction false} AllEnd(s: System, refs: Refs) returns (steps: seq<(UploadId, bool)>)
    requires Inv(s, refs)
    ensures Lively(s, refs, steps) && !Going(Run(s, refs, steps))
    ensures forall i :: 0 <= i < |steps| ==> steps[i].1
    decreases WorkLeft(s, refs)
  {
    hide Inv, Step, Blocked, Going;
    if Going(s) {
      var u := NoDeadlock(s, refs);
      WorkShrinks(s, refs, u, true);
      StepKeeps(s, refs, u, true);
      var rest := AllEnd(Step(s, refs, u, true), refs);
      steps := [(u, true)] + rest;
      assert steps[1..] == rest && steps[0] == (u, true);
      assert Run(s, refs, steps) == Run(Step(s, refs, u, true), refs, rest);
    } else {
      steps := [];
      assert Run(s, refs, steps) == s;
    }
  }
}
