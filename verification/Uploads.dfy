/**
 * Concurrent uploads (importUploads in src/daemon/main.cc) over the shared claim
 * table (src/daemon/upload-claims.hh): who imports a path and who waits for it.
 */
module UploadClaims {
  type Path = string
  type ClaimId = int   // by time of entry

  function Pruned(active: map<Path, ClaimId>, finished: set<ClaimId>): map<Path, ClaimId> {
    map p | p in active && active[p] !in finished :: active[p]
  }

  class Claims {
    var active: map<Path, ClaimId>

    constructor ()
      ensures active == map[]
    {
      active := map[];
    }

    /** The claim on a path: a new one (`id`), or the unfinished one of somebody else. */
    method Enter(path: Path, finished: set<ClaimId>, id: ClaimId) returns (claim: ClaimId, owner: bool)
      modifies this
      ensures active == Pruned(old(active), finished)[path := claim]
      ensures owner <==> path !in Pruned(old(active), finished)
      ensures claim == if owner then id else Pruned(old(active), finished)[path]
    {
      active := map p | p in active && active[p] !in finished :: active[p];
      owner := path !in active;
      claim := if owner then id else active[path];
      active := active[path := claim];
    }
  }
}

module Uploads {
  import opened Lists
  import opened UploadClaims

  type UploadId = int

  datatype Status = Pending | Fulfilled | Dropped
  datatype Claim = Claim(path: Path, owner: UploadId, status: Status)

  /** Reading the stream; importing owned[item], at its reference number `ref`; waiting for
      what others import; over. */
  datatype Phase = Reading | Importing(item: int, ref: int) | Awaiting(at: int) | Finished | Failed
  {
    predicate Over() { Finished? || Failed? }
  }

  datatype Upload = Upload(
    stream: seq<Path>,
    next: int,                     // read so far
    owned: seq<ClaimId>,
    theirs: seq<(Path, ClaimId)>,
    imported: seq<Path>,
    phase: Phase)

  datatype System = System(
    claims: seq<Claim>,            // every claim ever made
    active: map<Path, ClaimId>,
    uploads: seq<Upload>,
    store: set<Path>)

  type Refs = Path -> seq<Path>

  function New(stream: seq<Path>): Upload {
    Upload(stream, 0, [], [], [], Reading)
  }

  function Start(streams: seq<seq<Path>>, store: set<Path>): System {
    System([], map[], seq(|streams|, u requires 0 <= u < |streams| => New(streams[u])), store)
  }

  function Put(s: System, u: UploadId, up: Upload): System
    requires 0 <= u < |s.uploads|
  {
    s.(uploads := s.uploads[u := up])
  }

  function StatusOf(s: System, c: ClaimId): Status {
    if 0 <= c < |s.claims| then s.claims[c].status else Dropped
  }

  ghost function Done(s: System): set<ClaimId> {
    set c | 0 <= c < |s.claims| && !s.claims[c].status.Pending?
  }

  /** The claim somebody else has on a path, as seen when the path was read. */
  function Theirs(theirs: seq<(Path, ClaimId)>, p: Path): Option<ClaimId> {
    if theirs == [] then None
    else if theirs[|theirs| - 1].0 == p then Some(theirs[|theirs| - 1].1)
    else Theirs(theirs[..|theirs| - 1], p)
  }

  // ----------------------------------------------------------------- one upload's steps

  /** Reads the next path: skips a repeat, else enters it. */
  ghost function ReadNext(s: System, u: UploadId): System
    requires 0 <= u < |s.uploads| && 0 <= s.uploads[u].next < |s.uploads[u].stream|
  {
    var up := s.uploads[u];
    var path := up.stream[up.next];
    var read := up.(next := up.next + 1);
    if path in up.stream[..up.next] then Put(s, u, read)
    else
      var active := Pruned(s.active, Done(s));
      if path !in active then
        Put(s, u, read.(owned := up.owned + [|s.claims|]))
          .(claims := s.claims + [Claim(path, u, Pending)], active := active[path := |s.claims|])
      else
        Put(s, u, read.(theirs := up.theirs + [(path, active[path])])).(active := active)
  }

  /** An exception: the unfulfilled promises are dropped, which wakes their waiters. */
  ghost function Fail(s: System, u: UploadId): System
    requires 0 <= u < |s.uploads|
  {
    Put(s, u, s.uploads[u].(phase := Failed)).(claims := seq(|s.claims|, c requires 0 <= c < |s.claims| =>
      if s.claims[c].owner == u && s.claims[c].status.Pending? then s.claims[c].(status := Dropped) else s.claims[c]))
  }

  /** The path of the item being imported. */
  function Item(s: System, u: UploadId): Path
    requires 0 <= u < |s.uploads| && s.uploads[u].phase.Importing?
    requires 0 <= s.uploads[u].phase.item < |s.uploads[u].owned|
    requires 0 <= s.uploads[u].owned[s.uploads[u].phase.item] < |s.claims|
  {
    s.claims[s.uploads[u].owned[s.uploads[u].phase.item]].path
  }

  /** Adds the item to the store and fulfils its promise. */
  ghost function Import(s: System, u: UploadId): System
    requires 0 <= u < |s.uploads| && s.uploads[u].phase.Importing?
    requires 0 <= s.uploads[u].phase.item < |s.uploads[u].owned|
    requires 0 <= s.uploads[u].owned[s.uploads[u].phase.item] < |s.claims|
  {
    var up := s.uploads[u];
    var c, p := up.owned[up.phase.item], Item(s, u);
    Put(s, u, up.(phase := Importing(up.phase.item + 1, 0), imported := up.imported + [p]))
      .(claims := s.claims[c := s.claims[c].(status := Fulfilled)], store := s.store + {p})
  }

  /** The claim upload u waits for now. */
  ghost function WaitsFor(s: System, refs: Refs, u: UploadId): Option<ClaimId>
    requires 0 <= u < |s.uploads|
  {
    var up := s.uploads[u];
    match up.phase
    case Importing(item, ref) =>
      if 0 <= item < |up.owned| && 0 <= up.owned[item] < |s.claims| && 0 <= ref < |refs(Item(s, u))|
      then Theirs(up.theirs, refs(Item(s, u))[ref]) else None
    case Awaiting(at) => if 0 <= at < |up.theirs| then Some(up.theirs[at].1) else None
    case _ => None
  }

  ghost predicate Blocked(s: System, refs: Refs, u: UploadId)
    requires 0 <= u < |s.uploads|
  {
    WaitsFor(s, refs, u).Some? && StatusOf(s, WaitsFor(s, refs, u).value).Pending?
  }

  /** One step of upload u. `ok` is false when its stream or store fails or its caller cancels. */
  ghost function Step(s: System, refs: Refs, u: UploadId, ok: bool): System
    requires 0 <= u < |s.uploads|
  {
    var up := s.uploads[u];
    if up.phase.Over() then s
    else if !ok then Fail(s, u)
    else if Blocked(s, refs, u) then s
    else if WaitsFor(s, refs, u).Some? && StatusOf(s, WaitsFor(s, refs, u).value).Dropped? then Fail(s, u)
    else
      match up.phase
      case Reading =>
        if 0 <= up.next < |up.stream| then ReadNext(s, u) else Put(s, u, up.(phase := Importing(0, 0)))
      case Importing(item, ref) =>
        if !(0 <= item < |up.owned| && 0 <= up.owned[item] < |s.claims|) then Put(s, u, up.(phase := Awaiting(0)))
        else if 0 <= ref < |refs(Item(s, u))| then Put(s, u, up.(phase := Importing(item, ref + 1)))
        else Import(s, u)
      case Awaiting(at) =>
        if 0 <= at < |up.theirs| then
          Put(s, u, up.(phase := Awaiting(at + 1), imported := up.imported + [up.theirs[at].0]))
        else Put(s, u, up.(phase := Finished))
  }

  ghost function Run(s: System, refs: Refs, steps: seq<(UploadId, bool)>): System
    decreases |steps|
  {
    if steps == [] then s
    else Run(if 0 <= steps[0].0 < |s.uploads| then Step(s, refs, steps[0].0, steps[0].1) else s, refs, steps[1..])
  }

  // ----------------------------------------------------------------- invariants

  /** References before referrers. */
  ghost predicate Ordered(stream: seq<Path>, refs: Refs) {
    forall i, r :: 0 <= i < |stream| && r in refs(stream[i]) && r in stream && r != stream[i] ==> r in stream[..i]
  }

  /** The claims unfinished on a path: at most the active one. */
  ghost predicate ClaimsOk(s: System) {
    && (forall p :: p in s.active ==> 0 <= s.active[p] < |s.claims| && s.claims[s.active[p]].path == p)
    && (forall c :: 0 <= c < |s.claims| ==>
        && 0 <= s.claims[c].owner < |s.uploads|
        && (s.claims[c].status.Pending? ==> s.claims[c].path in s.active && s.active[s.claims[c].path] == c)
        && (s.claims[c].status.Fulfilled? ==> s.claims[c].path in s.store))
  }

  function Seen(up: Upload): seq<Path> {
    if 0 <= up.next <= |up.stream| then up.stream[..up.next] else []
  }

  /** How far the promises of an upload must be. */
  predicate Due(phase: Phase, k: int, status: Status) {
    match phase
    case Reading => status.Pending?
    case Importing(item, _) => if k < item then status.Fulfilled? else status.Pending?
    case Failed => !status.Pending?
    case _ => status.Fulfilled?
  }

  ghost predicate OwnedOk(s: System, u: UploadId)
    requires 0 <= u < |s.uploads|
  {
    var up := s.uploads[u];
    && (forall k :: 0 <= k < |up.owned| ==>
        && 0 <= up.owned[k] < |s.claims|
        && s.claims[up.owned[k]].owner == u
        && s.claims[up.owned[k]].path in Seen(up)
        && Due(up.phase, k, s.claims[up.owned[k]].status))
    && (forall j, k :: 0 <= j < k < |up.owned| ==> up.owned[j] < up.owned[k])
    && (forall c :: 0 <= c < |s.claims| && s.claims[c].owner == u ==> c in up.owned)
  }

  ghost predicate RefersToClaim(s: System, refs: Refs, c: ClaimId, d: ClaimId) {
    0 <= d < |s.claims| && RefersTo(s, refs, c, s.claims[d].path)
  }

  /** Own claims come in the order of references. */
  ghost predicate OwnOrderOk(s: System, refs: Refs, u: UploadId)
    requires 0 <= u < |s.uploads|
  {
    var owned := s.uploads[u].owned;
    forall j, k :: 0 <= j < |owned| && 0 <= k < |owned| && RefersToClaim(s, refs, owned[k], owned[j]) ==> j <= k
  }

  predicate Owns(claims: seq<Claim>, owned: seq<ClaimId>, p: Path) {
    exists k :: 0 <= k < |owned| && 0 <= owned[k] < |claims| && claims[owned[k]].path == p
  }

  predicate AwaitsPath(theirs: seq<(Path, ClaimId)>, p: Path) {
    exists i :: 0 <= i < |theirs| && theirs[i].0 == p
  }

  /** Every path read is ours to import or another's. */
  ghost predicate SeenOk(s: System, u: UploadId)
    requires 0 <= u < |s.uploads|
  {
    var up := s.uploads[u];
    forall p :: p in Seen(up) ==> Owns(s.claims, up.owned, p) || AwaitsPath(up.theirs, p)
  }

  /** References already waited for are in the store, and so is all that was awaited. */
  ghost predicate WaitedOk(s: System, refs: Refs, u: UploadId)
    requires 0 <= u < |s.uploads|
  {
    var up := s.uploads[u];
    match up.phase
    case Importing(item, ref) =>
      0 <= item < |up.owned| && 0 <= up.owned[item] < |s.claims| && 0 <= ref <= |refs(Item(s, u))| ==>
        forall r :: r in refs(Item(s, u))[..ref] && AwaitsPath(up.theirs, r) ==> r in s.store
    case Awaiting(at) => forall i :: 0 <= i < at && i < |up.theirs| ==> up.theirs[i].0 in s.store
    case Finished => forall i :: 0 <= i < |up.theirs| ==> up.theirs[i].0 in s.store
    case _ => true
  }

  ghost predicate RefersTo(s: System, refs: Refs, c: ClaimId, p: Path) {
    0 <= c < |s.claims| && p in refs(s.claims[c].path)
  }

  /** What others import for us, claimed before any of our claims that refers to it. */
  ghost predicate TheirsOk(s: System, refs: Refs, u: UploadId)
    requires 0 <= u < |s.uploads|
  {
    var up := s.uploads[u];
    && (forall i :: 0 <= i < |up.theirs| ==>
        && 0 <= up.theirs[i].1 < |s.claims|
        && s.claims[up.theirs[i].1].path == up.theirs[i].0
        && up.theirs[i].0 in Seen(up))
    && (forall i, k :: 0 <= i < |up.theirs| && 0 <= k < |up.owned| && RefersTo(s, refs, up.owned[k], up.theirs[i].0) ==>
        up.theirs[i].1 < up.owned[k])
  }

  ghost predicate PhaseOk(s: System, refs: Refs, u: UploadId)
    requires 0 <= u < |s.uploads|
  {
    var up := s.uploads[u];
    && 0 <= up.next <= |up.stream|
    && match up.phase
       case Reading => true
       case Failed => true
       case Importing(item, ref) =>
         && up.next == |up.stream| && 0 <= item <= |up.owned| && 0 <= ref && (item == |up.owned| ==> ref == 0)
         && (item < |up.owned| && 0 <= up.owned[item] < |s.claims| ==> ref <= |refs(Item(s, u))|)
       case Awaiting(at) => up.next == |up.stream| && 0 <= at <= |up.theirs|
       case Finished => up.next == |up.stream|
  }

  ghost predicate UploadOk(s: System, refs: Refs, u: UploadId)
    requires 0 <= u < |s.uploads|
  {
    && Ordered(s.uploads[u].stream, refs) && PhaseOk(s, refs, u)
    && OwnedOk(s, u) && OwnOrderOk(s, refs, u) && TheirsOk(s, refs, u) && SeenOk(s, u) && WaitedOk(s, refs, u)
  }

  ghost predicate Inv(s: System, refs: Refs) {
    ClaimsOk(s) && forall u :: 0 <= u < |s.uploads| ==> UploadOk(s, refs, u)
  }

  // ------------------------------------------------------------- no deadlock

  ghost predicate Going(s: System) {
    exists v :: 0 <= v < |s.uploads| && !s.uploads[v].phase.Over()
  }

  /** The oldest of the unfinished claims. */
  lemma {:induction false} Oldest(claims: seq<Claim>, c: ClaimId) returns (o: ClaimId)
    requires 0 <= c < |claims| && claims[c].status.Pending?
    ensures 0 <= o <= c && claims[o].status.Pending? && forall b :: 0 <= b < o ==> !claims[b].status.Pending?
    decreases c
  {
    if b :| 0 <= b < c && claims[b].status.Pending? {
      o := Oldest(claims, b);
    } else {
      o := c;
    }
  }

  lemma {:induction false} TheirsIn(theirs: seq<(Path, ClaimId)>, p: Path)
    ensures Theirs(theirs, p).Some? ==> exists i :: 0 <= i < |theirs| && theirs[i] == (p, Theirs(theirs, p).value)
    ensures Theirs(theirs, p).None? ==> forall i :: 0 <= i < |theirs| ==> theirs[i].0 != p
  {
    if theirs != [] && theirs[|theirs| - 1].0 != p {
      TheirsIn(theirs[..|theirs| - 1], p);
    }
  }

  /** An import waits only for claims older than its own. */
  lemma WaitsForOlder(s: System, refs: Refs, u: UploadId)
    requires Inv(s, refs) && 0 <= u < |s.uploads| && s.uploads[u].phase.Importing? && WaitsFor(s, refs, u).Some?
    ensures s.uploads[u].phase.item < |s.uploads[u].owned|
    ensures WaitsFor(s, refs, u).value < s.uploads[u].owned[s.uploads[u].phase.item]
  {
    var up := s.uploads[u];
    assert UploadOk(s, refs, u);
    var r := refs(Item(s, u))[up.phase.ref];
    TheirsIn(up.theirs, r);
    var i :| 0 <= i < |up.theirs| && up.theirs[i] == (r, WaitsFor(s, refs, u).value);
    assert RefersTo(s, refs, up.owned[up.phase.item], up.theirs[i].0);
  }

  /** The owner of the oldest unfinished claim is not blocked: it reads, or it imports that
      very claim. */
  lemma OldestOwnerSteps(s: System, refs: Refs, o: ClaimId)
    requires Inv(s, refs) && 0 <= o < |s.claims| && s.claims[o].status.Pending?
    requires forall b :: 0 <= b < o ==> !s.claims[b].status.Pending?
    ensures var u := s.claims[o].owner; !s.uploads[u].phase.Over() && !Blocked(s, refs, u)
  {
    var u := s.claims[o].owner;
    var up := s.uploads[u];
    assert UploadOk(s, refs, u);
    var k :| 0 <= k < |up.owned| && up.owned[k] == o;
    assert Due(up.phase, k, s.claims[up.owned[k]].status);
    if up.phase.Importing? && WaitsFor(s, refs, u).Some? {
      WaitsForOlder(s, refs, u);
      assert up.owned[up.phase.item] <= o;
    }
  }

  /** Some upload can always step. */
  lemma NoDeadlock(s: System, refs: Refs) returns (u: UploadId)
    requires Inv(s, refs) && Going(s)
    ensures 0 <= u < |s.uploads| && !s.uploads[u].phase.Over() && !Blocked(s, refs, u)
  {
    if c :| 0 <= c < |s.claims| && s.claims[c].status.Pending? {
      var o := Oldest(s.claims, c);
      OldestOwnerSteps(s, refs, o);
      u := s.claims[o].owner;
    } else {
      u :| 0 <= u < |s.uploads| && !s.uploads[u].phase.Over();
    }
  }

  // ------------------------------------------------------- every step keeps the invariant

  /** What a step of u leaves alone. */
  ghost predicate OnlyOf(s: System, s': System, u: UploadId) {
    && |s'.uploads| == |s.uploads| && |s.claims| <= |s'.claims| && s.store <= s'.store
    && (forall v :: 0 <= v < |s.uploads| && v != u ==> s'.uploads[v] == s.uploads[v])
    && (forall c :: 0 <= c < |s.claims| ==>
        && s'.claims[c].path == s.claims[c].path && s'.claims[c].owner == s.claims[c].owner
        && (s.claims[c].owner != u ==> s'.claims[c] == s.claims[c]))
    && (forall c :: |s.claims| <= c < |s'.claims| ==> s'.claims[c].owner == u)
  }

  /** The orders among the claims of an upload stay, as long as it makes none. */
  lemma ShapeSame(s: System, s': System, refs: Refs, u: UploadId, v: UploadId)
    requires OnlyOf(s, s', u) && 0 <= v < |s.uploads|
    requires s'.uploads[v] == s.uploads[v].(phase := s'.uploads[v].phase, imported := s'.uploads[v].imported)
    requires OwnedOk(s, v) && OwnOrderOk(s, refs, v) && TheirsOk(s, refs, v) && SeenOk(s, v)
    ensures OwnOrderOk(s', refs, v) && TheirsOk(s', refs, v) && SeenOk(s', v)
  {
  }

  lemma OthersKept(s: System, s': System, refs: Refs, u: UploadId, v: UploadId)
    requires OnlyOf(s, s', u) && 0 <= v < |s.uploads| && v != u && UploadOk(s, refs, v)
    ensures UploadOk(s', refs, v)
  {
    ShapeSame(s, s', refs, u, v);
    hide OwnOrderOk, TheirsOk, SeenOk;
    assert OwnedOk(s', v);
  }

  lemma StepKept(s: System, s': System, refs: Refs, u: UploadId)
    requires Inv(s, refs) && OnlyOf(s, s', u) && 0 <= u < |s.uploads| && ClaimsOk(s') && UploadOk(s', refs, u)
    ensures Inv(s', refs)
  {
    hide UploadOk, ClaimsOk;
    forall v | 0 <= v < |s'.uploads|
      ensures UploadOk(s', refs, v)
    {
      if v != u {
        OthersKept(s, s', refs, u, v);
      }
    }
  }

  lemma FailKeeps(s: System, refs: Refs, u: UploadId)
    requires Inv(s, refs) && 0 <= u < |s.uploads|
    ensures Inv(Fail(s, u), refs)
  {
    var s' := Fail(s, u);
    assert UploadOk(s, refs, u);
    hide Ordered, OwnOrderOk, TheirsOk, SeenOk;
    ShapeSame(s, s', refs, u, u);
    StepKept(s, s', refs, u);
  }

  /** A step that only moves u's phase on, with its promises where they must be. */
  lemma MoveKeeps(s: System, refs: Refs, u: UploadId, up: Upload)
    requires Inv(s, refs) && 0 <= u < |s.uploads| && up == s.uploads[u].(phase := up.phase, imported := up.imported)
    requires PhaseOk(Put(s, u, up), refs, u) && WaitedOk(Put(s, u, up), refs, u)
    requires forall k :: 0 <= k < |up.owned| && 0 <= up.owned[k] < |s.claims| ==>
      Due(up.phase, k, s.claims[up.owned[k]].status)
    ensures Inv(Put(s, u, up), refs)
  {
    var s' := Put(s, u, up);
    assert UploadOk(s, refs, u);
    hide Ordered, OwnOrderOk, TheirsOk, SeenOk, PhaseOk, WaitedOk, Due;
    ShapeSame(s, s', refs, u, u);
    StepKept(s, s', refs, u);
  }

  lemma ImportKeeps(s: System, refs: Refs, u: UploadId)
    requires Inv(s, refs) && 0 <= u < |s.uploads| && s.uploads[u].phase.Importing?
    requires 0 <= s.uploads[u].phase.item < |s.uploads[u].owned|
    requires 0 <= s.uploads[u].owned[s.uploads[u].phase.item] < |s.claims|
    ensures Inv(Import(s, u), refs)
  {
    hide Inv, Ordered, OwnOrderOk, TheirsOk, SeenOk, OwnedOk, ClaimsOk;
    var s' := Import(s, u);
    AllParts(s, refs, u);
    ImportClaims(s, u);
    ShapeSame(s, s', refs, u, u);
    StepKept(s, s', refs, u);
  }

  lemma AllParts(s: System, refs: Refs, u: UploadId)
    requires Inv(s, refs) && 0 <= u < |s.uploads|
    ensures ClaimsOk(s) && UploadOk(s, refs, u)
  {
  }

  lemma ImportClaims(s: System, u: UploadId)
    requires ClaimsOk(s) && 0 <= u < |s.uploads| && OwnedOk(s, u) && s.uploads[u].phase.Importing?
    requires 0 <= s.uploads[u].phase.item < |s.uploads[u].owned|
    ensures ClaimsOk(Import(s, u)) && OwnedOk(Import(s, u), u)
    ensures s.claims[s.uploads[u].owned[s.uploads[u].phase.item]].owner == u
  {
    var up := s.uploads[u];
    var c := up.owned[up.phase.item];
    ImportOwned(s, u);
    assert 0 <= c < |s.claims|;
    hide OwnedOk;
  }

  lemma ImportOwned(s: System, u: UploadId)
    requires 0 <= u < |s.uploads| && OwnedOk(s, u) && s.uploads[u].phase.Importing?
    requires 0 <= s.uploads[u].phase.item < |s.uploads[u].owned|
    ensures OwnedOk(Import(s, u), u)
  {
  }

  /** A repeated path is skipped. */
  lemma RepeatKeeps(s: System, refs: Refs, u: UploadId)
    requires Inv(s, refs) && 0 <= u < |s.uploads| && s.uploads[u].phase.Reading?
    requires var up := s.uploads[u]; 0 <= up.next < |up.stream| && up.stream[up.next] in up.stream[..up.next]
    ensures Inv(ReadNext(s, u), refs)
  {
    hide Ordered;
    var s', up := ReadNext(s, u), s.uploads[u];
    assert UploadOk(s, refs, u);
    SeenGrows(up, s'.uploads[u]);
    assert OwnedOk(s', u);
    assert OwnOrderOk(s', refs, u) && TheirsOk(s', refs, u);
    StepKept(s, s', refs, u);
  }

  lemma SeenGrows(up: Upload, up': Upload)
    requires 0 <= up.next < |up.stream| && up'.stream == up.stream && up'.next == up.next + 1
    ensures forall p :: p in Seen(up') <==> p in Seen(up) || p == up.stream[up.next]
  {
  }

  /** Nothing claimed before refers to a path that is only read now. */
  lemma NewPathUnreferred(s: System, refs: Refs, u: UploadId, k: int)
    requires Inv(s, refs) && 0 <= u < |s.uploads| && 0 <= k < |s.uploads[u].owned|
    requires var up := s.uploads[u]; 0 <= up.next < |up.stream| && up.stream[up.next] !in up.stream[..up.next]
    ensures !RefersTo(s, refs, s.uploads[u].owned[k], s.uploads[u].stream[s.uploads[u].next])
  {
    var up := s.uploads[u];
    assert UploadOk(s, refs, u);
    var path, p := up.stream[up.next], s.claims[up.owned[k]].path;
    var i :| 0 <= i < up.next && up.stream[i] == p;
    assert path in up.stream && path != p && path !in up.stream[..i];
  }

  lemma ClaimKeeps(s: System, refs: Refs, u: UploadId)
    requires Inv(s, refs) && 0 <= u < |s.uploads| && s.uploads[u].phase.Reading?
    requires var up := s.uploads[u];
      && 0 <= up.next < |up.stream| && up.stream[up.next] !in up.stream[..up.next]
      && up.stream[up.next] !in Pruned(s.active, Done(s))
    ensures Inv(ReadNext(s, u), refs)
  {
    var s', up := ReadNext(s, u), s.uploads[u];
    var up', n := s'.uploads[u], |s.claims|;
    assert UploadOk(s, refs, u);
    SeenGrows(up, up');
    forall k | 0 <= k < |up.owned|
      ensures !RefersTo(s, refs, up.owned[k], up.stream[up.next])
    {
      NewPathUnreferred(s, refs, u, k);
    }
    OwnsNew(s.claims, up.owned, s'.claims, up'.owned);
    ClaimOrders(s, refs, u);
    ClaimOwned(s, u);
    hide Ordered, OwnedOk, OwnOrderOk, TheirsOk, ClaimsOk, Owns;
    StepKept(s, s', refs, u);
  }

  lemma ClaimOwned(s: System, u: UploadId)
    requires ClaimsOk(s) && 0 <= u < |s.uploads| && OwnedOk(s, u) && s.uploads[u].phase.Reading?
    requires var up := s.uploads[u];
      && 0 <= up.next < |up.stream| && up.stream[up.next] !in up.stream[..up.next]
      && up.stream[up.next] !in Pruned(s.active, Done(s))
    ensures ClaimsOk(ReadNext(s, u)) && OwnedOk(ReadNext(s, u), u)
  {
    var s', up := ReadNext(s, u), s.uploads[u];
    SeenGrows(up, s'.uploads[u]);
    assert s'.uploads[u].owned[|up.owned|] == |s.claims|;
  }

  lemma OwnsNew(claims: seq<Claim>, owned: seq<ClaimId>, claims': seq<Claim>, owned': seq<ClaimId>)
    requires |claims'| == |claims| + 1 && claims'[..|claims|] == claims && owned' == owned + [|claims|]
    ensures forall p :: Owns(claims, owned, p) || p == claims'[|claims|].path ==> Owns(claims', owned', p)
  {
    forall p | Owns(claims, owned, p)
      ensures Owns(claims', owned', p)
    {
      var k :| 0 <= k < |owned| && 0 <= owned[k] < |claims| && claims[owned[k]].path == p;
      assert claims'[owned'[k]].path == p;
    }
    assert owned'[|owned|] == |claims|;
  }

  lemma ClaimOrders(s: System, refs: Refs, u: UploadId)
    requires 0 <= u < |s.uploads| && OwnedOk(s, u) && OwnOrderOk(s, refs, u) && TheirsOk(s, refs, u)
    requires var up := s.uploads[u];
      && 0 <= up.next < |up.stream| && up.stream[up.next] !in up.stream[..up.next]
      && up.stream[up.next] !in Pruned(s.active, Done(s))
      && forall k :: 0 <= k < |up.owned| ==> !RefersTo(s, refs, up.owned[k], up.stream[up.next])
    ensures OwnOrderOk(ReadNext(s, u), refs, u) && TheirsOk(ReadNext(s, u), refs, u)
  {
    var s', up := ReadNext(s, u), s.uploads[u];
    var up' := s'.uploads[u];
    forall j, k | 0 <= j < |up'.owned| && 0 <= k < |up'.owned| && RefersToClaim(s', refs, up'.owned[k], up'.owned[j])
      ensures j <= k
    {
      if k < |up.owned| {
        assert !RefersTo(s, refs, up.owned[k], up.stream[up.next]);
        assert j < |up.owned|;
        assert RefersToClaim(s, refs, up.owned[k], up.owned[j]);
      }
    }
    forall i, k | 0 <= i < |up'.theirs| && 0 <= k < |up'.owned| && RefersTo(s', refs, up'.owned[k], up'.theirs[i].0)
      ensures up'.theirs[i].1 < up'.owned[k]
    {
      if k < |up.owned| {
        assert RefersTo(s, refs, up.owned[k], up.theirs[i].0);
      }
    }
    SeenGrows(up, up');
  }

  lemma AwaitKeeps(s: System, refs: Refs, u: UploadId)
    requires Inv(s, refs) && 0 <= u < |s.uploads| && s.uploads[u].phase.Reading?
    requires var up := s.uploads[u];
      && 0 <= up.next < |up.stream| && up.stream[up.next] !in up.stream[..up.next]
      && up.stream[up.next] in Pruned(s.active, Done(s))
    ensures Inv(ReadNext(s, u), refs)
  {
    var s', up := ReadNext(s, u), s.uploads[u];
    var up' := s'.uploads[u];
    assert UploadOk(s, refs, u);
    SeenGrows(up, up');
    forall k | 0 <= k < |up.owned|
      ensures !RefersTo(s, refs, up.owned[k], up.stream[up.next])
    {
      NewPathUnreferred(s, refs, u, k);
    }
    AwaitOwned(s, refs, u);
    AwaitTheirs(s, refs, u);
    hide Ordered, OwnedOk, OwnOrderOk, TheirsOk, ClaimsOk, Owns, SeenOk;
    StepKept(s, s', refs, u);
  }

  lemma AwaitOwned(s: System, refs: Refs, u: UploadId)
    requires ClaimsOk(s) && 0 <= u < |s.uploads| && OwnedOk(s, u) && OwnOrderOk(s, refs, u)
    requires var up := s.uploads[u];
      && 0 <= up.next < |up.stream| && up.stream[up.next] !in up.stream[..up.next]
      && up.stream[up.next] in Pruned(s.active, Done(s))
    ensures var s' := ReadNext(s, u); ClaimsOk(s') && OwnedOk(s', u) && OwnOrderOk(s', refs, u)
  {
    var s', up := ReadNext(s, u), s.uploads[u];
    SeenGrows(up, s'.uploads[u]);
    assert OwnOrderOk(s', refs, u);
  }

  lemma AwaitTheirs(s: System, refs: Refs, u: UploadId)
    requires ClaimsOk(s) && 0 <= u < |s.uploads| && TheirsOk(s, refs, u) && SeenOk(s, u)
    requires var up := s.uploads[u];
      && 0 <= up.next < |up.stream| && up.stream[up.next] !in up.stream[..up.next]
      && up.stream[up.next] in Pruned(s.active, Done(s))
      && forall k :: 0 <= k < |up.owned| ==> !RefersTo(s, refs, up.owned[k], up.stream[up.next])
    ensures TheirsOk(ReadNext(s, u), refs, u) && SeenOk(ReadNext(s, u), u)
  {
    var s', up := ReadNext(s, u), s.uploads[u];
    var up' := s'.uploads[u];
    SeenGrows(up, up');
    forall i, k | 0 <= i < |up'.theirs| && 0 <= k < |up'.owned| && RefersTo(s', refs, up'.owned[k], up'.theirs[i].0)
      ensures up'.theirs[i].1 < up'.owned[k]
    {
      assert i < |up.theirs|;
      assert RefersTo(s, refs, up.owned[k], up.theirs[i].0);
    }
    assert forall p :: AwaitsPath(up.theirs, p) ==> AwaitsPath(up'.theirs, p) by {
      AwaitsGrows(up.theirs, up'.theirs);
    }
    assert up'.theirs[|up.theirs|].0 == up.stream[up.next];
  }

  lemma AwaitsGrows(theirs: seq<(Path, ClaimId)>, theirs': seq<(Path, ClaimId)>)
    requires theirs <= theirs'
    ensures forall p :: AwaitsPath(theirs, p) ==> AwaitsPath(theirs', p)
  {
  }

  lemma StepKeeps(s: System, refs: Refs, u: UploadId, ok: bool)
    requires Inv(s, refs) && 0 <= u < |s.uploads|
    ensures Inv(Step(s, refs, u, ok), refs)
  {
    var up := s.uploads[u];
    assert UploadOk(s, refs, u);
    if up.phase.Over() || (ok && Blocked(s, refs, u)) {
      assert Step(s, refs, u, ok) == s;
    } else if !ok || (WaitsFor(s, refs, u).Some? && StatusOf(s, WaitsFor(s, refs, u).value).Dropped?) {
      FailKeeps(s, refs, u);
    } else if up.phase.Reading? {
      ReadingKeeps(s, refs, u);
    } else if up.phase.Importing? {
      ImportingKeeps(s, refs, u);
    } else {
      AwaitingKeeps(s, refs, u);
    }
  }

  lemma ReadingKeeps(s: System, refs: Refs, u: UploadId)
    requires Inv(s, refs) && 0 <= u < |s.uploads| && s.uploads[u].phase.Reading?
    ensures Inv(Step(s, refs, u, true), refs)
  {
    var up := s.uploads[u];
    assert UploadOk(s, refs, u);
    if up.next == |up.stream| {
      MoveKeeps(s, refs, u, up.(phase := Importing(0, 0)));
    } else if up.stream[up.next] in up.stream[..up.next] {
      RepeatKeeps(s, refs, u);
    } else if up.stream[up.next] in Pruned(s.active, Done(s)) {
      AwaitKeeps(s, refs, u);
    } else {
      ClaimKeeps(s, refs, u);
    }
  }

  /** A reference that was awaited and not dropped is in the store. */
  lemma WaitedInStore(s: System, refs: Refs, u: UploadId, r: Path)
    requires Inv(s, refs) && 0 <= u < |s.uploads| && AwaitsPath(s.uploads[u].theirs, r)
    requires var c := Theirs(s.uploads[u].theirs, r); c.Some? ==> StatusOf(s, c.value).Fulfilled?
    ensures r in s.store
  {
    var theirs := s.uploads[u].theirs;
    assert UploadOk(s, refs, u);
    TheirsIn(theirs, r);
    var i :| 0 <= i < |theirs| && theirs[i] == (r, Theirs(theirs, r).value);
  }

  lemma ImportingFacts(s: System, refs: Refs, u: UploadId)
    requires Inv(s, refs) && 0 <= u < |s.uploads| && s.uploads[u].phase.Importing?
    ensures var up := s.uploads[u];
      && 0 <= up.phase.item <= |up.owned|
      && (up.phase.item < |up.owned| ==>
          0 <= up.owned[up.phase.item] < |s.claims| && 0 <= up.phase.ref <= |refs(Item(s, u))|)
  {
    assert UploadOk(s, refs, u);
  }

  lemma ImportingKeeps(s: System, refs: Refs, u: UploadId)
    requires Inv(s, refs) && 0 <= u < |s.uploads| && s.uploads[u].phase.Importing? && !Blocked(s, refs, u)
    requires WaitsFor(s, refs, u).Some? ==> !StatusOf(s, WaitsFor(s, refs, u).value).Dropped?
    ensures Inv(Step(s, refs, u, true), refs)
  {
    var up := s.uploads[u];
    ImportingFacts(s, refs, u);
    hide Inv, UploadOk, StatusOf;
    if up.phase.item == |up.owned| {
      AllImportedKeeps(s, refs, u);
    } else if up.phase.ref < |refs(Item(s, u))| {
      ReferenceKeeps(s, refs, u);
    } else {
      ImportKeeps(s, refs, u);
    }
  }

  lemma AllImportedKeeps(s: System, refs: Refs, u: UploadId)
    requires Inv(s, refs) && 0 <= u < |s.uploads| && s.uploads[u].phase.Importing?
    requires s.uploads[u].phase.item == |s.uploads[u].owned|
    ensures Inv(Put(s, u, s.uploads[u].(phase := Awaiting(0))), refs)
  {
    assert PhaseOk(s, refs, u) && OwnedOk(s, u) by {
      assert UploadOk(s, refs, u);
    }
    hide Inv, UploadOk;
    MoveKeeps(s, refs, u, s.uploads[u].(phase := Awaiting(0)));
  }

  ghost predicate ReferenceReady(s: System, refs: Refs, u: UploadId)
    requires 0 <= u < |s.uploads|
  {
    var up := s.uploads[u];
    && up.phase.Importing? && 0 <= up.phase.item < |up.owned| && 0 <= up.owned[up.phase.item] < |s.claims|
    && 0 <= up.phase.ref < |refs(Item(s, u))|
    && var c := Theirs(up.theirs, refs(Item(s, u))[up.phase.ref]); c.Some? ==> StatusOf(s, c.value).Fulfilled?
  }

  lemma ReferenceKeeps(s: System, refs: Refs, u: UploadId)
    requires Inv(s, refs) && 0 <= u < |s.uploads| && ReferenceReady(s, refs, u)
    ensures Inv(Put(s, u, s.uploads[u].(phase := Importing(s.uploads[u].phase.item, s.uploads[u].phase.ref + 1))), refs)
  {
    hide Inv, PhaseOk, WaitedOk, Theirs, StatusOf;
    var up := s.uploads[u];
    Parts(s, refs, u);
    ReferenceWaited(s, refs, u);
    MoveKeeps(s, refs, u, up.(phase := Importing(up.phase.item, up.phase.ref + 1)));
  }

  lemma Parts(s: System, refs: Refs, u: UploadId)
    requires Inv(s, refs) && 0 <= u < |s.uploads|
    ensures PhaseOk(s, refs, u) && WaitedOk(s, refs, u) && OwnedOk(s, u)
  {
    assert UploadOk(s, refs, u);
  }

  lemma ReferenceWaited(s: System, refs: Refs, u: UploadId)
    requires Inv(s, refs) && 0 <= u < |s.uploads| && ReferenceReady(s, refs, u)
    ensures var s' := Put(s, u, s.uploads[u].(phase := Importing(s.uploads[u].phase.item, s.uploads[u].phase.ref + 1)));
      PhaseOk(s', refs, u) && WaitedOk(s', refs, u)
  {
    hide Inv, StatusOf, OwnedOk;
    var up, all := s.uploads[u], refs(Item(s, u));
    Parts(s, refs, u);
    var r := all[up.phase.ref];
    if AwaitsPath(up.theirs, r) {
      WaitedInStore(s, refs, u, r);
    }
    assert all[..up.phase.ref + 1] == all[..up.phase.ref] + [r];
  }

  lemma AwaitingKeeps(s: System, refs: Refs, u: UploadId)
    requires Inv(s, refs) && 0 <= u < |s.uploads| && s.uploads[u].phase.Awaiting? && !Blocked(s, refs, u)
    requires WaitsFor(s, refs, u).Some? ==> !StatusOf(s, WaitsFor(s, refs, u).value).Dropped?
    ensures Inv(Step(s, refs, u, true), refs)
  {
    var up := s.uploads[u];
    assert UploadOk(s, refs, u);
    var at := up.phase.at;
    if at < |up.theirs| {
      MoveKeeps(s, refs, u, up.(phase := Awaiting(at + 1), imported := up.imported + [up.theirs[at].0]));
    } else {
      MoveKeeps(s, refs, u, up.(phase := Finished));
    }
  }

  lemma {:induction false} RunKeeps(s: System, refs: Refs, steps: seq<(UploadId, bool)>)
    requires Inv(s, refs)
    ensures Inv(Run(s, refs, steps), refs)
    decreases |steps|
  {
    hide Inv, Step;
    if steps != [] {
      if 0 <= steps[0].0 < |s.uploads| {
        StepKeeps(s, refs, steps[0].0, steps[0].1);
        RunKeeps(Step(s, refs, steps[0].0, steps[0].1), refs, steps[1..]);
      } else {
        RunKeeps(s, refs, steps[1..]);
      }
    }
  }

  // ----------------------------------------------------------------- theorems

  /** Whatever the interleaving and the failures, some upload that is not over can step. */
  lemma NeverStuck(streams: seq<seq<Path>>, store: set<Path>, refs: Refs, steps: seq<(UploadId, bool)>)
    returns (u: UploadId)
    requires forall v :: 0 <= v < |streams| ==> Ordered(streams[v], refs)
    requires Going(Run(Start(streams, store), refs, steps))
    ensures var s := Run(Start(streams, store), refs, steps);
      0 <= u < |s.uploads| && !s.uploads[u].phase.Over() && !Blocked(s, refs, u)
  {
    RunKeeps(Start(streams, store), refs, steps);
    u := NoDeadlock(Run(Start(streams, store), refs, steps), refs);
  }

  /** A path is added only once the references that its upload brings are in the store. */
  lemma ReferencesFirst(s: System, refs: Refs, u: UploadId, r: Path)
    requires Inv(s, refs) && 0 <= u < |s.uploads| && s.uploads[u].phase.Importing?
    requires var up := s.uploads[u];
      && 0 <= up.phase.item < |up.owned| && 0 <= up.owned[up.phase.item] < |s.claims|
      && up.phase.ref == |refs(Item(s, u))| && r in refs(Item(s, u)) && r in up.stream && r != Item(s, u)
    ensures r in s.store
  {
    var up := s.uploads[u];
    assert UploadOk(s, refs, u) && ClaimsOk(s);
    hide Ordered, TheirsOk, Inv, ClaimsOk, OwnedOk, OwnOrderOk;
    if AwaitsPath(up.theirs, r) {
      assert refs(Item(s, u))[..up.phase.ref] == refs(Item(s, u));
    } else {
      assert Seen(up) == up.stream;
      OwnReferenceFirst(s, refs, u, r);
    }
  }

  lemma OwnReferenceFirst(s: System, refs: Refs, u: UploadId, r: Path)
    requires ClaimsOk(s) && 0 <= u < |s.uploads| && OwnedOk(s, u) && OwnOrderOk(s, refs, u)
    requires s.uploads[u].phase.Importing?
    requires var up := s.uploads[u];
      0 <= up.phase.item < |up.owned| && r in refs(Item(s, u)) && r != Item(s, u) && Owns(s.claims, up.owned, r)
    ensures r in s.store
  {
  }

  /** An upload that finishes leaves all of its stream in the store, whoever imported it. */
  lemma FinishedIsStored(streams: seq<seq<Path>>, store: set<Path>, refs: Refs, steps: seq<(UploadId, bool)>,
                         u: UploadId)
    requires forall v :: 0 <= v < |streams| ==> Ordered(streams[v], refs)
    ensures var s := Run(Start(streams, store), refs, steps);
      0 <= u < |s.uploads| && s.uploads[u].phase.Finished? ==> forall p :: p in s.uploads[u].stream ==> p in s.store
  {
    RunKeeps(Start(streams, store), refs, steps);
    var s := Run(Start(streams, store), refs, steps);
    if 0 <= u < |s.uploads| && s.uploads[u].phase.Finished? {
      var up := s.uploads[u];
      assert UploadOk(s, refs, u);
      assert Seen(up) == up.stream;
      forall p | p in up.stream
        ensures p in s.store
      {
        assert Owns(s.claims, up.owned, p) || AwaitsPath(up.theirs, p);
      }
    }
  }

  /** No path is ever being imported twice at a time. */
  lemma OneClaimAtATime(streams: seq<seq<Path>>, store: set<Path>, refs: Refs, steps: seq<(UploadId, bool)>)
    requires forall v :: 0 <= v < |streams| ==> Ordered(streams[v], refs)
    ensures var s := Run(Start(streams, store), refs, steps);
      forall c, d ::
        && 0 <= c < |s.claims| && s.claims[c].status.Pending?
        && 0 <= d < |s.claims| && s.claims[d].status.Pending?
        && s.claims[c].path == s.claims[d].path ==>
          c == d
  {
    RunKeeps(Start(streams, store), refs, steps);
  }
}
