/**
 * The event layer over the placement core (src/daemon/dispatcher.cc). After
 * every event, what the followers of a queued entry were last told about its
 * placeability is right.
 */
module Dispatchers {
  import opened Lists
  import opened SchedState
  import opened SchedLemmas
  import opened DispatchSpec
  import opened SystemTables
  import opened SchedCore

  const MAX_SYSTEM_LEN: int := 64

  /** What a client is answered; `Queued` means nothing is sent. */
  datatype Reply = Restarting | Cached | Refused | Assigned(worker: WorkerId, assignId: nat) | Unplaceable | Queued

  datatype Outcome = Built | Failed | Cancelled | GivenBack | NoShow

  datatype ClientMsg = WantMsg(info: WantInfo, cached: bool) | CancelMsg(path: PathKey)

  datatype WorkerMsg =
    | Hello(addr: string, systems: seq<string>, features: seq<string>, maxJobs: nat, running: seq<(PathKey, nat)>)
    | Done(path: PathKey, outcome: Outcome, outputs: seq<(PathKey, nat)>)
    | Load(draining: bool)

  predicate BadHello(hel: WorkerMsg)
    requires hel.Hello?
  {
    hel.addr == "" || hel.systems == [] || exists i :: 0 <= i < |hel.systems| && |hel.systems[i]| > MAX_SYSTEM_LEN
  }

  datatype Event =
    | FromClient(client: ClientId, msg: ClientMsg, nowMs: real, sendOk: nat -> bool)
    | ClientLeft(client: ClientId)
    | FromWorker(session: Option<WorkerId>, msgs: seq<WorkerMsg>, sendOk: nat -> bool)
    | WorkerLeft(worker: WorkerId, sendOk: nat -> bool)
    | LetGo(going: bool)

  /** Running lists do not matter for what a worker could ever run. */
  ghost predicate SameOffers(a: seq<Worker>, b: seq<Worker>) {
    |a| == |b| && forall w :: 0 <= w < |a| ==> b[w] == a[w].(running := b[w].running)
  }

  /** Flags survive any change that alters no queued entry but those in `untold`, and no offer. */
  lemma FlagsKept(entries0: Entries, entries: Entries, a: seq<Worker>, b: seq<Worker>, untold: set<DrvId>)
    requires FlagsOk(entries0, a, untold) && SameOffers(a, b)
    requires forall d :: Unplaced(entries, d) && d !in untold ==>
      Unplaced(entries0, d) && SameFlag(entries0[d].value, entries[d].value)
    requires forall d :: Unplaced(entries, d) && d in untold && entries[d].value.unplaceable ==>
      Unplaced(entries0, d) && SameFlag(entries0[d].value, entries[d].value)
    ensures FlagsOk(entries, b, untold)
  {
  }

  lemma WantedFollows(was: Option<Entry>, client: ClientId, info: WantInfo, nowMs: real)
    ensures client in Wanted(was, client, info, nowMs).followers
  {
  }

  lemma FlagsAfterWant(entries0: Entries, entries: Entries, workers: seq<Worker>, d: DrvId)
    requires FlagsOk(entries0, workers, {})
    requires forall x :: Live(entries, x) && x != d ==> Live(entries0, x) && entries[x] == entries0[x]
    requires Unplaced(entries, d) && entries[d].value.unplaceable ==>
      Unplaced(entries0, d) && SameFlag(entries0[d].value, entries[d].value)
    ensures FlagsOk(entries, workers, {d})
  {
  }

  function Unfollow(t: map<PathKey, Entry>, path: PathKey, client: ClientId): map<PathKey, Entry> {
    if path !in t then t
    else
      var slot := Unfollowed(Some(t[path]), client);
      if slot.None? then t - {path} else t[path := slot.value]
  }

  lemma UnfollowInTable(entries0: Entries, ids0: map<PathKey, DrvId>, free0: seq<DrvId>,
                        entries: Entries, ids: map<PathKey, DrvId>, free: seq<DrvId>, path: PathKey, client: ClientId)
    requires IdsOk(entries0, ids0, free0) && IdsOk(entries, ids, free)
    requires path !in ids0 ==> entries == entries0
    requires path in ids0 ==> entries == entries0[ids0[path] := Unfollowed(Lookup(Table(entries0, ids0), path), client)]
    ensures Table(entries, ids) == Unfollow(Table(entries0, ids0), path, client)
  {
    var t0, t := Table(entries0, ids0), Table(entries, ids);
    forall p
      ensures Lookup(t, p) == Lookup(Unfollow(t0, path, client), p)
    {
      if p in ids {
        assert Live(entries, ids[p]) && Live(entries0, ids[p]) && entries0[ids[p]].value.path == p;
      }
      if p in ids0 && Live(entries, ids0[p]) {
        assert entries[ids0[p]].value.path == p;
      }
    }
    assert forall p :: p in t <==> Lookup(t, p).Some?;
    assert forall p :: p in Unfollow(t0, path, client) <==> Lookup(Unfollow(t0, path, client), p).Some?;
  }

  /** Entries somebody follows stay what they are, wherever they run. */
  ghost predicate FollowedKept(entries0: Entries, entries: Entries) {
    forall d :: Live(entries0, d) && entries0[d].value.followers != [] ==>
      && Live(entries, d) && entries[d].value.path == entries0[d].value.path
      && entries[d].value.followers == entries0[d].value.followers
  }

  /** A dispatch changes entries only by placing them. */
  ghost predicate OnlyPlaced(entries0: Entries, entries: Entries) {
    && |entries| == |entries0|
    && (forall d :: Unplaced(entries, d) ==> entries[d] == entries0[d])
    && (forall d :: Live(entries0, d) ==>
        && Live(entries, d)
        && entries[d].value
           == entries0[d].value.(worker := entries[d].value.worker, assignId := entries[d].value.assignId))
  }

  lemma DispatchOnlyPlaces(entries0: Entries, entries: Entries, workers: seq<Worker>, out: seq<Assign>, id0: nat)
    requires Placements(entries0, entries, workers, out, id0)
    ensures OnlyPlaced(entries0, entries) && forall k :: 0 <= k < |out| ==> 0 <= out[k].worker < |workers|
  {
  }

  class Dispatcher {
    const core: Core
    const defaultSystem: string
    var sessions: set<WorkerId>
    var lettingGo: bool

    ghost predicate Objects()
      reads this, core, core.table, core.table.Repr
    {
      core.Valid() && this !in core.table.Repr && defaultSystem != ""
    }

    /** What every event keeps. */
    ghost predicate Valid()
      reads this, core, core.table, core.table.Repr
    {
      Objects() && FlagsOk(core.entries, core.workers, {})
    }

    constructor (defaultSystem: string)
      requires defaultSystem != ""
      ensures Valid() && fresh(core) && fresh(core.table.Repr)
    {
      this.defaultSystem := defaultSystem;
      core := new Core();
      sessions, lettingGo := {}, false;
    }

    /** The system a name stands for; never the empty one. */
    function SystemFor(system: string): (r: string)
      ensures defaultSystem != "" ==> r != ""
    {
      if system == "" || system == "builtin" then defaultSystem else system
    }

    /** Corrects the flags of queued entries; `changed` are the ones whose clients get a message. */
    method PlaceabilityChanged() returns (changed: seq<DrvId>)
      requires Objects()
      modifies core`entries
      ensures Valid()
      ensures forall d :: d in changed <==>
        && Unplaced(old(core.entries), d)
        && old(core.entries)[d].value.unplaceable == Placeable(core.workers, old(core.entries)[d].value)
      ensures NoDup(changed)
      ensures |core.entries| == |old(core.entries)|
      ensures forall d :: 0 <= d < |core.entries| ==>
        core.entries[d] == if d in changed then Flipped(old(core.entries)[d]) else old(core.entries)[d]
    {
      changed := core.PlaceabilityChanges();
    }

    /** Places what can be placed and sends the Expects; a worker whose stream died is gone. */
    method DispatchLocked(sendOk: nat -> bool, ghost untold: set<DrvId>)
      requires Objects()
      modifies this`sessions, core, core.table.Repr
      ensures Objects()
      ensures (old(FlagsOk(core.entries, core.workers, untold)) ==> FlagsOk(core.entries, core.workers, untold))
      ensures fresh(core.table.Repr - old(core.table.Repr))
      ensures FollowedKept(old(core.entries), core.entries)
      ensures |core.workers| == |old(core.workers)| && sessions <= old(sessions)
    {
      hide Core.Valid, FlagsOk, Placements, Suitable, NoInversion, Stuck;
      var out := core.Dispatch();
      assert core.SameRecords(old(core.workers));
      DispatchOnlyPlaces(old(core.entries), core.entries, core.workers, out, old(core.lastAssignId));
      if old(FlagsOk(core.entries, core.workers, untold)) {
        FlagsKept(old(core.entries), core.entries, old(core.workers), core.workers, untold);
      }
      var i := 0;
      while i < |out|
        invariant 0 <= i <= |out|
        invariant Objects() && fresh(core.table.Repr - old(core.table.Repr))
        invariant old(FlagsOk(core.entries, core.workers, untold)) ==> FlagsOk(core.entries, core.workers, untold)
        invariant forall k :: 0 <= k < |out| ==> 0 <= out[k].worker < |core.workers|
        invariant |core.workers| == |old(core.workers)| && sessions <= old(sessions)
        invariant FollowedKept(old(core.entries), core.entries)
      {
        if Live(core.entries, out[i].drv) && (out[i].worker !in sessions || !sendOk(i)) {
          core.WorkerGone(out[i].worker);
          sessions := sessions - {out[i].worker};
          var _ := PlaceabilityChanged();
          FlagsWeaken(core.entries, core.workers, untold);
        }
        i := i + 1;
      }
    }

    // ----------------------------------------------------------- clients

    method OnWant(client: ClientId, info: WantInfo, cached: bool, nowMs: real, sendOk: nat -> bool)
      returns (reply: Reply)
      requires Valid()
      modifies this`sessions, core, core.table.Repr
      ensures Valid() && fresh(core.table.Repr - old(core.table.Repr))
      ensures info.path == "" ==> reply == Queued
      ensures reply.Restarting? <==> info.path != "" && lettingGo
      ensures reply.Cached? <==> info.path != "" && !lettingGo && cached
      ensures reply.Refused? <==>
        && info.path != "" && !lettingGo && !cached
        && (|info.system| > MAX_SYSTEM_LEN || !old(core.AdmitsSystem(SystemFor(info.system))))
      ensures info.path == "" || reply.Restarting? || reply.Cached? || reply.Refused? ==>
        core.entries == old(core.entries)
      ensures reply.Assigned? || reply.Unplaceable? || (reply.Queued? && info.path != "") ==> Wants(client, info.path)
      ensures reply.Assigned? ==> PlacedAs(info.path, reply.worker, reply.assignId)
      ensures reply.Unplaceable? ==>
        core.At(info.path).value.worker.None? && !Placeable(core.workers, core.At(info.path).value)
      ensures reply.Queued? && info.path != "" && core.At(info.path).value.worker.None? ==>
        Placeable(core.workers, core.At(info.path).value)
    {
      hide Core.Valid, FlagsOk, Placeable, IdsOk, QueuesOk, RunningOk, FreeOk, FollowsOk, Table, Wants, PlacedAs;
      if info.path == "" {
        return Queued;
      }
      if lettingGo {
        return Restarting;
      }
      if cached {
        return Cached;
      }
      CoreParts();
      if |info.system| > MAX_SYSTEM_LEN || !core.AdmitsSystem(SystemFor(info.system)) {
        return Refused;
      }
      reply := Accept(client, info.(system := SystemFor(info.system)), nowMs, sendOk);
    }

    /** A Want the scheduler takes on. */
    method Accept(client: ClientId, info: WantInfo, nowMs: real, sendOk: nat -> bool) returns (reply: Reply)
      requires Valid() && info.system != ""
      modifies this`sessions, core, core.table.Repr
      ensures Valid() && fresh(core.table.Repr - old(core.table.Repr))
      ensures Wants(client, info.path) && (reply.Assigned? || reply.Unplaceable? || reply.Queued?)
      ensures reply.Assigned? ==> PlacedAs(info.path, reply.worker, reply.assignId)
      ensures reply.Unplaceable? ==>
        core.At(info.path).value.worker.None? && !Placeable(core.workers, core.At(info.path).value)
      ensures reply.Queued? && core.At(info.path).value.worker.None? ==>
        Placeable(core.workers, core.At(info.path).value)
    {
      hide Core.Valid, SystemTable.Valid, FlagsOk, Placeable, IdsOk, QueuesOk, RunningOk, FreeOk, FollowsOk, Table,
        Wanted, SameFlag;
      CoreParts();
      var d, placed := core.Want(client, info, nowMs);
      FlagsAfterWant(old(core.entries), core.entries, core.workers, d);
      WantedFollows(old(core.At(info.path)), client, info, nowMs);
      CoreParts();
      TableAt(core.entries, core.drvIds, core.freeIds, d);
      if placed.Some? {
        FlagsSettled(core.entries, core.workers, d);
        return Assigned(placed.value.0, placed.value.1);
      }
      reply := DispatchAndTell(d, sendOk);
      CoreParts();
      TableAt(core.entries, core.drvIds, core.freeIds, d);
    }

    /** Dispatches after a Want and finds out whether its client has to be told "unplaceable". */
    method DispatchAndTell(d: DrvId, sendOk: nat -> bool) returns (reply: Reply)
      requires Objects() && FlagsOk(core.entries, core.workers, {d})
      requires Live(core.entries, d) && core.entries[d].value.followers != []
      modifies this`sessions, core, core.table.Repr
      ensures Valid() && fresh(core.table.Repr - old(core.table.Repr))
      ensures FollowedKept(old(core.entries), core.entries)
      ensures reply ==
        if Unplaced(core.entries, d) && !Placeable(core.workers, core.entries[d].value) then Unplaceable else Queued
    {
      hide Core.Valid, FlagsOk, Placeable;
      DispatchLocked(sendOk, {d});
      if Unplaced(core.entries, d) && !Placeable(core.workers, core.entries[d].value) {
        FlagsTold(core.entries, core.workers, d);
        core.MarkUnplaceable(d);
        return Unplaceable;
      }
      FlagsSettled(core.entries, core.workers, d);
      return Queued;
    }

    ghost predicate PlacedAs(path: PathKey, w: WorkerId, assignId: nat)
      reads this, core
    {
      core.At(path).Some? && core.At(path).value.worker == Some(w) && core.At(path).value.assignId == assignId
    }

    method OnCancel(client: ClientId, path: PathKey) returns (revoke: Option<WorkerId>)
      requires Valid()
      modifies core, core.table.Repr
      ensures Valid() && fresh(core.table.Repr - old(core.table.Repr))
      ensures revoke == RevokedOn(old(core.At(path)), client)
      ensures Table(core.entries, core.drvIds) == Unfollow(old(Table(core.entries, core.drvIds)), path, client)
    {
      hide Core.Valid, SystemTable.Valid, FlagsOk, Placeable, QueuesOk, RunningOk, FreeOk, FollowsOk;
      CoreParts();
      revoke := core.Cancel(client, path);
      CoreParts();
      UnfollowInTable(old(core.entries), old(core.drvIds), old(core.freeIds), core.entries, core.drvIds, core.freeIds,
        path, client);
      FlagsKept(old(core.entries), core.entries, core.workers, core.workers, {});
    }

    /** Placed entries nobody follows any more are kept for a while, as orphans. */
    method ClientGone(client: ClientId) returns (orphans: seq<(DrvId, WorkerId)>)
      requires Valid()
      modifies core, core.table.Repr
      ensures Valid() && fresh(core.table.Repr - old(core.table.Repr))
      ensures forall x :: x in orphans <==>
        0 <= x.0 < |old(core.entries)| && RevokedOn(old(core.entries)[x.0], client) == Some(x.1)
      ensures forall x :: x in orphans ==> PlacedOn(core.entries, x.0, x.1) && core.entries[x.0].value.followers == []
      ensures forall d :: Live(core.entries, d) ==> client !in core.entries[d].value.followers
      ensures NoDup(orphans)
    {
      hide Core.Valid, SystemTable.Valid, FlagsOk, Placeable, QueuesOk, RunningOk, FreeOk, FollowsOk, IdsOk;
      CoreParts();
      orphans := core.ClientGone(client);
      CoreParts();
      FlagsKept(old(core.entries), core.entries, core.workers, core.workers, {});
    }

    // ----------------------------------------------------------- workers

    /** None if the Hello is refused. */
    method OnHello(hel: WorkerMsg) returns (id: Option<WorkerId>)
      requires Valid() && hel.Hello?
      modifies this`sessions, core, core.table.Repr
      ensures Valid() && fresh(core.table.Repr - old(core.table.Repr))
      ensures id.None? <==> BadHello(hel)
      ensures id.Some? ==> 0 <= id.value < |core.workers| && core.workers[id.value].up && id.value in sessions
      ensures |old(core.workers)| <= |core.workers|
    {
      hide Core.Valid, FlagsOk;
      if hel.systems == [] {
        return None;
      }
      var systems := [];
      var i := 0;
      while i < |hel.systems|
        invariant 0 <= i <= |hel.systems|
        invariant forall j :: 0 <= j < i ==> |hel.systems[j]| <= MAX_SYSTEM_LEN
      {
        if |hel.systems[i]| > MAX_SYSTEM_LEN {
          return None;
        }
        systems := systems + [SystemFor(hel.systems[i])];
        i := i + 1;
      }
      if hel.addr == "" {
        return None;
      }
      var superseded;
      id, superseded := core.Hello(hel.addr, systems, hel.features, hel.maxJobs, hel.running);
      sessions := sessions + {id.value};
      var _ := PlaceabilityChanged();
    }

    method OnDone(w: WorkerId, path: PathKey, outcome: Outcome, outputs: seq<(PathKey, nat)>)
      requires Valid() && 0 <= w < |core.workers|
      modifies core, core.table.Repr
      ensures Valid() && fresh(core.table.Repr - old(core.table.Repr))
      ensures |core.workers| == |old(core.workers)|
      ensures !RunsOn(Table(core.entries, core.drvIds), path, w)
      ensures !outcome.GivenBack? && !outcome.NoShow? ==>
        Table(core.entries, core.drvIds) == EndedTable(old(Table(core.entries, core.drvIds)), path, w)
    {
      hide Core.Valid, FlagsOk;
      if outcome.GivenBack? || outcome.NoShow? {
        core.GiveBack(w, path);
        assert !RunsOn(Table(core.entries, core.drvIds), path, w);
        var _ := PlaceabilityChanged();
        return;
      }
      core.Done(w, path, if outcome.Built? then outputs else []);
      FlagsKept(old(core.entries), core.entries, old(core.workers), core.workers, {});
    }

    method OnLoad(w: WorkerId, draining: bool)
      requires Valid() && 0 <= w < |core.workers|
      modifies core, core.table.Repr
      ensures Valid() && fresh(core.table.Repr - old(core.table.Repr))
      ensures core.workers == old(core.workers)[w := old(core.workers)[w].(draining := draining)]
    {
      hide Core.Valid, FlagsOk;
      core.SetDraining(w, draining);
      var _ := PlaceabilityChanged();
    }

    /** A batch from one worker session; `session` is the worker id its Hello gave it. False
        ends the session: a message before Hello, or a Hello that is refused. */
    method WorkerMsgs(session: Option<WorkerId>, msgs: seq<WorkerMsg>, sendOk: nat -> bool)
      returns (session': Option<WorkerId>, ok: bool)
      requires Valid() && (session.Some? ==> 0 <= session.value < |core.workers|)
      modifies this`sessions, core, core.table.Repr
      ensures Valid() && fresh(core.table.Repr - old(core.table.Repr))
      ensures session'.Some? ==> 0 <= session'.value < |core.workers|
      ensures ok && msgs != [] ==> session'.Some?
      ensures ok <==>
        && (msgs == [] || session.Some? || msgs[0].Hello?)
        && (forall i :: 0 <= i < |msgs| && msgs[i].Hello? ==> !BadHello(msgs[i]))
      ensures msgs == [] || (session.None? && !msgs[0].Hello?) ==>
        core.entries == old(core.entries) && core.workers == old(core.workers)
    {
      hide Core.Valid, FlagsOk, BadHello;
      session', ok := session, true;
      if msgs == [] {
        return;
      }
      var i := 0;
      while i < |msgs|
        invariant 0 <= i <= |msgs|
        invariant Valid() && fresh(core.table.Repr - old(core.table.Repr))
        invariant session'.Some? ==> 0 <= session'.value < |core.workers|
        invariant if i > 0 then session'.Some? && (session.Some? || msgs[0].Hello?) else session' == session
        invariant i == 0 ==> core.entries == old(core.entries) && core.workers == old(core.workers)
        invariant forall k :: 0 <= k < i && msgs[k].Hello? ==> !BadHello(msgs[k])
      {
        if msgs[i].Hello? {
          var id := OnHello(msgs[i]);
          if id.None? {
            return session', false;
          }
          session' := id;
        } else if session'.None? {
          return session', false;
        } else if msgs[i].Done? {
          OnDone(session'.value, msgs[i].path, msgs[i].outcome, msgs[i].outputs);
        } else {
          OnLoad(session'.value, msgs[i].draining);
        }
        i := i + 1;
      }
      DispatchLocked(sendOk, {});
    }

    method WorkerGone(w: WorkerId, sendOk: nat -> bool)
      requires Valid() && 0 <= w < |core.workers|
      modifies this`sessions, core, core.table.Repr
      ensures Valid() && fresh(core.table.Repr - old(core.table.Repr))
      ensures |core.workers| == |old(core.workers)| && w !in sessions
    {
      hide Core.Valid, FlagsOk;
      core.WorkerGone(w);
      sessions := sessions - {w};
      DispatchLocked(sendOk, {});
      var _ := PlaceabilityChanged();
    }

    /** Any sequence of events, in any order. A worker id no Hello ever gave out is ignored. */
    method Run(events: seq<Event>)
      requires Valid()
      modifies this, core, core.table.Repr
      ensures Valid() && fresh(core.table.Repr - old(core.table.Repr))
    {
      hide Core.Valid, FlagsOk;
      var i := 0;
      while i < |events|
        invariant 0 <= i <= |events|
        invariant Valid() && fresh(core.table.Repr - old(core.table.Repr))
      {
        match events[i] {
          case FromClient(c, WantMsg(info, cached), nowMs, sendOk) =>
            var _ := OnWant(c, info, cached, nowMs, sendOk);
          case FromClient(c, CancelMsg(path), _, _) =>
            var _ := OnCancel(c, path);
          case ClientLeft(c) =>
            var _ := ClientGone(c);
          case FromWorker(session, msgs, sendOk) =>
            if session.Some? ==> 0 <= session.value < |core.workers| {
              var _, _ := WorkerMsgs(session, msgs, sendOk);
            }
          case WorkerLeft(w, sendOk) =>
            if 0 <= w < |core.workers| {
              WorkerGone(w, sendOk);
            }
          case LetGo(going) =>
            lettingGo := going;
        }
        i := i + 1;
      }
    }

    lemma CoreParts()
      requires Objects()
      ensures core.Objects() && IdsOk(core.entries, core.drvIds, core.freeIds)
      ensures QueuesOk(core.entries, core.table.view, {})
      ensures RunningOk(core.entries, core.workers) && FollowsOk(core.entries, core.follows)
      ensures FreeOk(core.workers, core.table.view, {})
    {
    }

    ghost predicate Wants(client: ClientId, path: PathKey)
      reads this, core
    {
      core.At(path).Some? && client in core.At(path).value.followers
    }
  }

  /** An entry that is placed or placeable needs no telling. */
  lemma FlagsSettled(entries: Entries, workers: seq<Worker>, d: DrvId)
    requires FlagsOk(entries, workers, {d})
    requires Unplaced(entries, d) ==> Placeable(workers, entries[d].value)
    ensures FlagsOk(entries, workers, {})
  {
  }

  lemma FlagsTold(entries: Entries, workers: seq<Worker>, d: DrvId)
    requires FlagsOk(entries, workers, {d}) && Unplaced(entries, d) && !Placeable(workers, entries[d].value)
    ensures FlagsOk(entries[d := Some(entries[d].value.(unplaceable := true))], workers, {})
    ensures !Placeable(workers, entries[d].value.(unplaceable := true))
  {
  }

  lemma FlagsWeaken(entries: Entries, workers: seq<Worker>, untold: set<DrvId>)
    requires FlagsOk(entries, workers, {})
    ensures FlagsOk(entries, workers, untold)
  {
  }
}
