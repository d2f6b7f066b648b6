/** The placement core (src/daemon/scheduler.hh, class Core). */
module SchedCore {
  import opened Lists
  import opened SchedState
  import opened SchedLemmas
  import opened SystemTables
  import opened DispatchSpec
  import HeapOrder

  class Core {
    var entries: Entries
    var drvIds: map<PathKey, DrvId>   // live entries only
    var freeIds: seq<DrvId>
    var workers: seq<Worker>
    var workerIds: map<string, WorkerId>
    const table: SystemTable
    var follows: map<ClientId, seq<DrvId>>
    var lastBuilder: map<PathKey, (WorkerId, nat)>
    var lastAssignId: nat
    var workersUp: int

    ghost predicate Objects()
      reads this, table, table.Repr
    {
      table.Valid() && this !in table.Repr
    }

    /** What every event keeps. */
    ghost predicate Valid()
      reads this, table, table.Repr
    {
      && Objects()
      && IdsOk(entries, drvIds, freeIds)
      && QueuesOk(entries, table.view, {})
      && RunningOk(entries, workers)
      && FreeOk(workers, table.view, {})
      && FollowsOk(entries, follows)
      && AddrsOk(workers, workerIds)
      && workersUp == CountUp(workers)
    }

    ghost function At(path: PathKey): Option<Entry>
      reads this
    {
      var t := Table(entries, drvIds);
      if path in t then Some(t[path]) else None
    }

    constructor ()
      ensures Valid() && fresh(table) && fresh(table.Repr)
      ensures entries == [] && workers == [] && lastAssignId == 0
    {
      entries, drvIds, freeIds := [], map[], [];
      workers, workerIds := [], map[];
      follows, lastBuilder := map[], map[];
      lastAssignId, workersUp := 0, 0;
      table := new SystemTable();
    }

    predicate Offered(name: string)
      reads this`workers
    {
      exists w :: 0 <= w < |workers| && name in workers[w].systems
    }

    const MAX_UNOFFERED_SYSTEMS: int := 16

    /** The system is known, or there is room for one more that no worker serves. */
    predicate AdmitsSystem(system: string)
      reads this, table, table.Repr
      requires Objects()
    {
      table.Has(system) || |set n | n in table.Names() && !Offered(n)| < MAX_UNOFFERED_SYSTEMS
    }

    // ------------------------------------------------------ shared steps

    /** Shows worker w's current free slots in every system it offers. */
    method RefreshFree(w: WorkerId, ghost but: set<WorkerId>)
      requires Objects()
      requires 0 <= w < |workers| && w !in but
      requires FreeOk(workers, table.view, but + {w})
      modifies table.Repr
      ensures Objects() && fresh(table.Repr - old(table.Repr))
      ensures FreeOk(workers, table.view, but) && SameQueues(old(table.view), table.view)
    {
      hide FreeOk, SystemTable.Valid, InQueue;
      var names, val := workers[w].systems, FreeSlots(workers[w]);
      var i := 0;
      while i < |names|
        invariant 0 <= i <= |names|
        invariant Objects() && fresh(table.Repr - old(table.Repr))
        invariant FreeOk(workers, table.view, but + {w}) && SameQueues(old(table.view), table.view)
        invariant forall j :: 0 <= j < i ==> Tracked(table.view, names[j], w) && table.view[names[j]].free[w] == val
      {
        FreeSetOne(workers, table.view, but, w, names[i], val);
        table.FreeSet(names[i], w, val);
        i := i + 1;
      }
      FreeAllSet(workers, table.view, but, w);
    }

    /** Takes an entry out of the table and its queue; its id may be given out again. */
    method Retire(d: DrvId, ghost dirty: set<DrvId>, ghost but: set<WorkerId>)
      requires Objects()
      requires Live(entries, d)
      requires IdsOk(entries, drvIds, freeIds)
      requires QueuesOk(entries, table.view, dirty)
      requires FreeOk(workers, table.view, but)
      modifies this`entries, this`drvIds, this`freeIds, table.Repr
      ensures Objects() && fresh(table.Repr - old(table.Repr))
      ensures entries == old(entries)[d := None] && drvIds == old(drvIds) - {old(entries)[d].value.path}
      ensures IdsOk(entries, drvIds, freeIds)
      ensures QueuesOk(entries, table.view, dirty - {d})
      ensures FreeOk(workers, table.view, but)
      ensures Table(entries, drvIds) == Table(old(entries), old(drvIds)) - {old(entries)[d].value.path}
    {
      hide IdsOk, QueuesOk, FreeOk, SystemTable.Valid, Table, SameFree, KeysBut, SameQueues, InQueue;
      var e := entries[d].value;
      QueuesRetire(entries, table.view, dirty, d);
      if table.Has(e.system) {
        FreeSame(workers, table.view, EraseKey(table.view, e.system, d), but);
        table.QueueErase(e.system, d);
        var empty := table.QueueEmpty(e.system);
        if empty && !Offered(e.system) {
          FreeForget(workers, table.view, but, e.system);
          QueuesSame(entries[d := None], table.view, Forget(table.view, e.system), dirty - {d});
          table.Drop(e.system);
        }
      }
      IdsRetire(entries, drvIds, freeIds, d);
      TableRetire(entries, drvIds, freeIds, d);
      drvIds := drvIds - {e.path};
      entries := entries[d := None];
      freeIds := freeIds + [d];
    }

    /** The id of a path, with a slot filled by `blank` if the path was unknown. */
    method Intern(path: PathKey, blank: Entry) returns (d: DrvId)
      requires Objects()
      requires IdsOk(entries, drvIds, freeIds) && QueuesOk(entries, table.view, {})
      requires RunningOk(entries, workers) && FollowsOk(entries, follows)
      requires blank.path == path && blank.worker.None? && blank.followers == []
      modifies this`entries, this`drvIds, this`freeIds
      ensures Objects()
      ensures IdsOk(entries, drvIds, freeIds) && RunningOk(entries, workers) && FollowsOk(entries, follows)
      ensures Live(entries, d) && entries[d].value.path == path
      ensures forall x :: Live(old(entries), x) ==> Live(entries, x) && entries[x] == old(entries)[x]
      ensures forall x :: Live(entries, x) && x != d ==> Live(old(entries), x)
      ensures path in old(drvIds) ==>
        && entries == old(entries) && drvIds == old(drvIds) && freeIds == old(freeIds) && old(At(path)) == entries[d]
      ensures path !in old(drvIds) ==>
        && old(At(path)) == None && entries[d] == Some(blank) && QueuesOk(entries, table.view, {d})
        && Table(entries, drvIds) == old(Table(entries, drvIds))[path := blank]
    {
      hide IdsOk, RunningOk, FollowsOk, QueuesOk, SystemTable.Valid, Table;
      assert {} + {|entries|} == {|entries|};
      if path in drvIds {
        KnownPath(entries, drvIds, freeIds, path);
        return drvIds[path];
      }
      UnknownPath(entries, drvIds, path);
      if freeIds != [] {
        d := freeIds[|freeIds| - 1];
        assert {} + {d} == {d};
        IdsRecycle(entries, drvIds, freeIds, blank);
        TableRecycle(entries, drvIds, freeIds, d, blank);
        QueuesAdd(entries, table.view, {}, d, blank);
        RunningAdd(entries, workers, d, blank);
        FollowsNew(entries, follows, d, blank);
        freeIds := freeIds[..|freeIds| - 1];
        entries := entries[d := Some(blank)];
      } else {
        d := |entries|;
        IdsGrow(entries, drvIds, freeIds, blank);
        TableGrow(entries, drvIds, freeIds, blank);
        QueuesGrow(entries, table.view, {}, blank);
        RunningGrow(entries, workers, blank);
        FollowsNew(entries, follows, d, blank);
        entries := entries + [Some(blank)];
      }
      drvIds := drvIds[path := d];
    }

    /** Changes a live entry in place, its worker excepted. */
    method Rewrite(d: DrvId, e: Entry, ghost dirty: set<DrvId>)
      requires Objects()
      requires IdsOk(entries, drvIds, freeIds) && QueuesOk(entries, table.view, dirty) && RunningOk(entries, workers)
      requires Live(entries, d) && e.path == entries[d].value.path && e.worker == entries[d].value.worker
      requires e.system != entries[d].value.system ==> e.worker.Some? && d !in dirty
      modifies this`entries
      ensures Objects()
      ensures entries == old(entries)[d := Some(e)]
      ensures Table(entries, drvIds) == old(Table(entries, drvIds))[e.path := e]
      ensures IdsOk(entries, drvIds, freeIds) && RunningOk(entries, workers)
      ensures QueuesOk(entries, table.view, dirty + {d})
      ensures e.worker.Some? && d !in dirty ==> QueuesOk(entries, table.view, dirty)
    {
      hide IdsOk, QueuesOk, RunningOk, SystemTable.Valid, Table;
      IdsUpdate(entries, drvIds, freeIds, d, e);
      TableUpdate(entries, drvIds, freeIds, d, e);
      RunningKeep(entries, workers, d, e);
      QueuesUpdate(entries, table.view, dirty, d, e);
      entries := entries[d := Some(e)];
    }

    /** Puts an unplaced, followed entry in its system's queue under its current priority. */
    method Requeue(d: DrvId)
      requires Objects()
      requires Unplaced(entries, d) && entries[d].value.followers != [] && entries[d].value.system != ""
      requires QueuesOk(entries, table.view, {d}) && FreeOk(workers, table.view, {})
      modifies table.Repr
      ensures Objects() && fresh(table.Repr - old(table.Repr))
      ensures QueuesOk(entries, table.view, {}) && FreeOk(workers, table.view, {})
    {
      hide QueuesOk, FreeOk, SystemTable.Valid, SameFree, KeysBut, Prio;
      assert {d} - {d} == {};
      var e := entries[d].value;
      QueuesEnqueue(entries, table.view, {d}, d);
      FreeSame(workers, table.view, SetKey(table.view, e.system, d, Prio(e)), {});
      table.QueueSet(e.system, d, Prio(e));
    }

    // ----------------------------------------------------------- clients

    /** Adds a follower to an entry, whose other fields become those of `e`. */
    method Follow(client: ClientId, d: DrvId, e: Entry, ghost dirty: set<DrvId>)
      requires Objects()
      requires IdsOk(entries, drvIds, freeIds) && QueuesOk(entries, table.view, dirty) && RunningOk(entries, workers)
      requires FollowsOk(entries, follows) && dirty <= {d}
      requires Live(entries, d) && e.path == entries[d].value.path && e.worker == entries[d].value.worker
      requires e.followers == entries[d].value.followers && e.system != ""
      requires e.system != entries[d].value.system ==> e.worker.Some? && d !in dirty
      modifies this`entries, this`follows
      ensures Objects()
      ensures IdsOk(entries, drvIds, freeIds) && RunningOk(entries, workers) && FollowsOk(entries, follows)
      ensures QueuesOk(entries, table.view, {d})
      ensures e.worker.Some? && dirty == {} ==> QueuesOk(entries, table.view, {})
      ensures var f := e.(followers := if client in e.followers then e.followers else e.followers + [client]);
        entries == old(entries)[d := Some(f)] && Table(entries, drvIds) == old(Table(entries, drvIds))[e.path := f]
    {
      hide IdsOk, QueuesOk, RunningOk, FollowsOk, SystemTable.Valid, Table;
      assert dirty + {d} == {d};
      var f := e;
      if client !in e.followers {
        f := e.(followers := e.followers + [client]);
        FollowsAdd(entries, follows, d, f, client);
        follows := follows[client := (if client in follows then follows[client] else []) + [d]];
      } else {
        FollowsKeep(entries, follows, d, f);
      }
      Rewrite(d, f, dirty);
    }

    /** A client wants a derivation the cache lacks. */
    method Want(client: ClientId, info: WantInfo, nowMs: real) returns (d: DrvId, placed: Option<(WorkerId, nat)>)
      requires Valid() && (info.system != "" || (At(info.path).Some? && At(info.path).value.system != ""))
      modifies this`entries, this`drvIds, this`freeIds, this`follows, table.Repr
      ensures Valid() && fresh(table.Repr - old(table.Repr))
      ensures Table(entries, drvIds) ==
        old(Table(entries, drvIds))[info.path := Wanted(old(At(info.path)), client, info, nowMs)]
      ensures Live(entries, d) && entries[d].value == Wanted(old(At(info.path)), client, info, nowMs)
      ensures entries[d].value.path == info.path
      ensures forall x :: Live(entries, x) && x != d ==> Live(old(entries), x) && entries[x] == old(entries)[x]
      ensures Unplaced(entries, d) && entries[d].value.unplaceable ==>
        Unplaced(old(entries), d) && SameFlag(old(entries)[d].value, entries[d].value)
      ensures placed == if entries[d].value.worker.Some?
        then Some((entries[d].value.worker.value, entries[d].value.assignId)) else None
    {
      hide IdsOk, QueuesOk, RunningOk, FreeOk, FollowsOk, AddrsOk, CountUp, SystemTable.Valid, Table, Prio;
      var blank := NewEntry(info.path).(
        inputs := info.inputs, system := info.system, features := info.features, enqMs := nowMs);
      d := Intern(info.path, blank);
      var e := entries[d].value;
      assert {d} + {d} == {d} && {} + {d} == {d};
      if e.system == "" {
        PlacedWithoutSystem(entries, table.view, {}, d);
        e := e.(system := info.system, features := info.features);
      }
      e := e.(cpHint := if e.cpHint < info.cpHint then info.cpHint else e.cpHint);
      Follow(client, d, e, if info.path in old(drvIds) then {} else {d});
      if e.worker.Some? {
        return d, Some((e.worker.value, e.assignId));
      }
      Requeue(d);
      return d, None;
    }

    /** One client stops following; `revoke` is where the entry runs if nobody is left. `listed` is
        what the followers are listed in. */
    method CancelId(client: ClientId, d: DrvId, ghost listed: map<ClientId, seq<DrvId>>)
      returns (revoke: Option<WorkerId>)
      requires Objects()
      requires IdsOk(entries, drvIds, freeIds) && QueuesOk(entries, table.view, {})
      requires RunningOk(entries, workers) && FreeOk(workers, table.view, {}) && FollowsOk(entries, listed)
      modifies this`entries, this`drvIds, this`freeIds, table.Repr
      ensures Objects() && fresh(table.Repr - old(table.Repr))
      ensures IdsOk(entries, drvIds, freeIds) && QueuesOk(entries, table.view, {})
      ensures RunningOk(entries, workers) && FreeOk(workers, table.view, {}) && FollowsOk(entries, listed)
      ensures if 0 <= d < |old(entries)|
        then
          && entries == old(entries)[d := Unfollowed(old(entries)[d], client)]
          && revoke == RevokedOn(old(entries)[d], client)
        else entries == old(entries) && revoke == None
    {
      hide IdsOk, QueuesOk, RunningOk, FreeOk, FollowsOk, SystemTable.Valid, Prio, Table;
      assert {} + {d} == {d} && {d} - {d} == {};
      if !Live(entries, d) || client !in entries[d].value.followers {
        return None;
      }
      var e := entries[d].value;
      FollowsCancel(entries, listed, d, client);
      if e.worker.None? { QueuedEntry(entries, table.view, {}, d); }
      e := e.(followers := Without(e.followers, client));
      Rewrite(d, e, {});
      if e.followers != [] {
        if e.worker.None? {
          Requeue(d);
        }
        return None;
      }
      if e.worker.None? {
        RunningRetire(entries, workers, d);
        FollowsRetire(entries, listed, d);
        Retire(d, {d}, {});
        return None;
      }
      return e.worker;
    }

    method Cancel(client: ClientId, path: PathKey) returns (revoke: Option<WorkerId>)
      requires Valid()
      modifies this`entries, this`drvIds, this`freeIds, table.Repr
      ensures Valid() && fresh(table.Repr - old(table.Repr))
      ensures path in old(drvIds) ==>
        && entries == old(entries)[old(drvIds)[path] := Unfollowed(old(At(path)), client)]
        && revoke == RevokedOn(old(At(path)), client)
      ensures path !in old(drvIds) ==> entries == old(entries) && revoke == None
    {
      hide QueuesOk, RunningOk, FreeOk, FollowsOk, AddrsOk, CountUp, SystemTable.Valid, Prio;
      if path !in drvIds {
        return None;
      }
      revoke := CancelId(client, drvIds[path], follows);
    }

    /** A client's stream ended: it follows nothing any more. */
    method ClientGone(client: ClientId) returns (revokes: seq<(DrvId, WorkerId)>)
      requires Valid()
      modifies this`entries, this`drvIds, this`freeIds, this`follows, table.Repr
      ensures Valid() && fresh(table.Repr - old(table.Repr))
      ensures |entries| == |old(entries)| && client !in follows
      ensures forall d :: 0 <= d < |entries| ==> entries[d] == Unfollowed(old(entries)[d], client)
      ensures forall x :: x in revokes <==>
        0 <= x.0 < |old(entries)| && RevokedOn(old(entries)[x.0], client) == Some(x.1)
      ensures NoDup(revokes)
    {
      hide IdsOk, QueuesOk, RunningOk, FreeOk, AddrsOk, CountUp, SystemTable.Valid, Prio;
      revokes := [];
      if client !in follows {
        return;
      }
      var drvs := follows[client];
      ghost var listed := follows;
      follows := follows - {client};
      var i := 0;
      while i < |drvs|
        invariant 0 <= i <= |drvs|
        invariant Objects() && fresh(table.Repr - old(table.Repr))
        invariant IdsOk(entries, drvIds, freeIds) && QueuesOk(entries, table.view, {})
        invariant RunningOk(entries, workers) && FreeOk(workers, table.view, {}) && FollowsOk(entries, listed)
        invariant |entries| == |old(entries)| && follows == listed - {client}
        invariant forall d :: 0 <= d < |entries| ==>
          entries[d] == if d in drvs[..i] then Unfollowed(old(entries)[d], client) else old(entries)[d]
        invariant forall x :: x in revokes <==>
          0 <= x.0 < |old(entries)| && x.0 in drvs[..i] && RevokedOn(old(entries)[x.0], client) == Some(x.1)
        invariant NoDup(revokes)
      {
        var d := drvs[i];
        assert drvs[..i + 1] == drvs[..i] + [d];
        assert 0 <= d < |entries| && d in drvs[..i] ==> RevokedOn(entries[d], client).None?;
        var wid := CancelId(client, d, listed);
        if wid.Some? {
          assert d !in drvs[..i];
          NoDupAppend(revokes, (d, wid.value));
          revokes := revokes + [(d, wid.value)];
        }
        i := i + 1;
      }
      assert drvs[..i] == drvs;
      FollowsForget(entries, listed, client);
    }

    // ----------------------------------------------------------- workers

    /** Replaces a worker's record, its systems excepted, and refreshes its free slots. */
    method ChangeWorker(w: WorkerId, wkr: Worker, ghost but: set<WorkerId>)
      requires Objects()
      requires 0 <= w < |workers| && w !in but
      requires wkr.systems == workers[w].systems && wkr.addr == workers[w].addr
      requires FreeOk(workers, table.view, but) && AddrsOk(workers, workerIds)
      modifies this`workers, table.Repr
      ensures Objects() && fresh(table.Repr - old(table.Repr))
      ensures workers == old(workers)[w := wkr]
      ensures FreeOk(workers, table.view, but) && AddrsOk(workers, workerIds)
      ensures SameQueues(old(table.view), table.view)
      ensures CountUp(workers) ==
        old(CountUp(workers)) + (if wkr.up then 1 else 0) - (if old(workers[w].up) then 1 else 0)
    {
      hide FreeOk, AddrsOk, SystemTable.Valid, SameQueues, CountUp, FreeSlots;
      FreeWorker(workers, table.view, but, w, wkr);
      AddrsUpdate(workers, workerIds, w, wkr);
      CountUpUpdate(workers, w, wkr);
      workers := workers[w := wkr];
      RefreshFree(w, but);
    }

    method SetDraining(w: WorkerId, draining: bool)
      requires Valid() && 0 <= w < |workers|
      modifies this`workers, table.Repr
      ensures Valid() && fresh(table.Repr - old(table.Repr))
      ensures workers == old(workers)[w := old(workers)[w].(draining := draining)]
    {
      hide IdsOk, QueuesOk, RunningOk, FreeOk, FollowsOk, AddrsOk, CountUp, SystemTable.Valid, SameQueues;
      WorkerFacts(entries, workers, w);
      RunningWorker(entries, workers, w, workers[w].(draining := draining));
      ChangeWorker(w, workers[w].(draining := draining), {});
      QueuesSame(entries, old(table.view), table.view, {});
    }

    /** Takes `d` off worker w and back into its queue, or retires it if nobody follows it.
        `run` is what the workers ran before. */
    method TakeOff(d: DrvId, w: WorkerId, avoid: Option<WorkerId>, ghost run: seq<Worker>)
      requires Objects()
      requires IdsOk(entries, drvIds, freeIds) && QueuesOk(entries, table.view, {})
      requires FreeOk(workers, table.view, {}) && FollowsOk(entries, follows)
      requires 0 <= w < |run| && PlacedOn(entries, d, w) && RunningOk(entries, run)
      modifies this`entries, this`drvIds, this`freeIds, table.Repr
      ensures Objects() && fresh(table.Repr - old(table.Repr))
      ensures IdsOk(entries, drvIds, freeIds) && QueuesOk(entries, table.view, {})
      ensures FreeOk(workers, table.view, {}) && FollowsOk(entries, follows)
      ensures RunningOk(entries, run[w := run[w].(running := Without(run[w].running, d))])
      ensures var e := old(entries)[d].value;
        && entries == old(entries)[d := if e.followers == [] then None else Some(e.(worker := None, avoid := avoid))]
        && Table(entries, drvIds) == if e.followers == [] then old(Table(entries, drvIds)) - {e.path}
                                     else old(Table(entries, drvIds))[e.path := e.(worker := None, avoid := avoid)]
    {
      hide IdsOk, QueuesOk, RunningOk, FreeOk, FollowsOk, SystemTable.Valid, Table;
      assert {} + {d} == {d} && {d} - {d} == {};
      var e := entries[d].value.(worker := None, avoid := avoid);
      FollowedSystem(entries, follows, d);
      IdsUpdate(entries, drvIds, freeIds, d, e);
      TableUpdate(entries, drvIds, freeIds, d, e);
      TableRetire(entries, drvIds, freeIds, d);
      QueuesUpdate(entries, table.view, {}, d, e);
      RunningDrop(entries, run, d, e, w);
      FollowsKeep(entries, follows, d, e);
      entries := entries[d := Some(e)];
      if e.followers == [] {
        RunningRetire(entries, run[w := run[w].(running := Without(run[w].running, d))], d);
        FollowsRetire(entries, follows, d);
        Retire(d, {d}, {});
      } else {
        Requeue(d);
      }
    }

    /** The worker finished it, or a Cancel reached it: forget the entry. */
    method Done(w: WorkerId, path: PathKey, outputs: seq<(PathKey, nat)>)
      requires Valid() && 0 <= w < |workers|
      modifies this`entries, this`drvIds, this`freeIds, this`workers, this`lastBuilder, table.Repr
      ensures Valid() && fresh(table.Repr - old(table.Repr))
      ensures Table(entries, drvIds) == EndedTable(old(Table(entries, drvIds)), path, w)
      ensures Remembered(old(lastBuilder), lastBuilder, w, outputs)
      ensures forall x :: Live(entries, x) ==> Live(old(entries), x) && entries[x] == old(entries)[x]
      ensures |workers| == |old(workers)|
      ensures forall v :: 0 <= v < |workers| && v != w ==> workers[v] == old(workers)[v]
      ensures workers[w] == old(workers)[w].(running := workers[w].running)
    {
      hide QueuesOk, RunningOk, FreeOk, FollowsOk, AddrsOk, CountUp, SystemTable.Valid, SameQueues, Table, Remembered;
      RememberBuilders(w, outputs);
      if path !in drvIds {
        UnknownPath(entries, drvIds, path);
        return;
      }
      var d := drvIds[path];
      TableAt(entries, drvIds, freeIds, d);
      hide IdsOk;
      WorkerFacts(entries, workers, w);
      var placed := PlacedOn(entries, d, w);
      ghost var entries0, workers0 := entries, workers;
      ChangeWorker(w, workers[w].(running := Without(workers[w].running, d)), {});
      QueuesSame(entries, old(table.view), table.view, {});
      if placed {
        RunningDone(entries0, workers0, d, w);
        FollowsRetire(entries, follows, d);
        assert {} - {d} == {};
        Retire(d, {}, {});
      } else {
        assert workers == workers0;
      }
    }

    /** Which worker built a path last; the table is started over when full. */
    method RememberBuilders(w: WorkerId, outputs: seq<(PathKey, nat)>)
      modifies this`lastBuilder
      ensures Remembered(old(lastBuilder), lastBuilder, w, outputs)
    {
      hide Remembered;
      NothingBuilt(lastBuilder, w);
      var i := 0;
      while i < |outputs|
        invariant 0 <= i <= |outputs| && Remembered(old(lastBuilder), lastBuilder, w, outputs[..i])
      {
        RememberMore(old(lastBuilder), lastBuilder, w, outputs[..i], outputs[i]);
        assert outputs[..i + 1] == outputs[..i] + [outputs[i]];
        var path := outputs[i].0;
        if path !in lastBuilder && |lastBuilder| >= MAX_LAST_BUILDER {
          lastBuilder := map[];
        }
        lastBuilder := lastBuilder[path := (w, outputs[i].1)];
        i := i + 1;
      }
      assert outputs[..|outputs|] == outputs;
    }

    /** Ends a placement without a result: the entry waits again and avoids this worker, or goes if
        nobody follows it. */
    method GiveBack(w: WorkerId, path: PathKey)
      requires Valid() && 0 <= w < |workers|
      modifies this`entries, this`drvIds, this`freeIds, this`workers, table.Repr
      ensures Valid() && fresh(table.Repr - old(table.Repr))
      ensures Table(entries, drvIds) == GivenBackTable(old(Table(entries, drvIds)), path, w)
      ensures |workers| == |old(workers)|
      ensures forall v :: 0 <= v < |workers| && v != w ==> workers[v] == old(workers)[v]
      ensures workers[w] == old(workers)[w].(running := workers[w].running)
    {
      hide QueuesOk, RunningOk, FreeOk, FollowsOk, AddrsOk, CountUp, SystemTable.Valid, SameQueues, Table;
      if path !in drvIds {
        UnknownPath(entries, drvIds, path);
        return;
      }
      var d := drvIds[path];
      TableAt(entries, drvIds, freeIds, d);
      hide IdsOk;
      WorkerFacts(entries, workers, w);
      ghost var entries0, workers0 := entries, workers;
      var e := entries[d].value;
      ChangeWorker(w, workers[w].(running := Without(workers[w].running, d)), {});
      QueuesSame(entries, old(table.view), table.view, {});
      if e.worker != Some(w) {
        assert workers == workers0;
        return;
      }
      TakeOff(d, w, Some(w), workers0);
    }

    /** Ends all placements of a worker: entries somebody follows wait again, the others go. */
    method WorkerGone(w: WorkerId)
      requires Valid() && 0 <= w < |workers|
      modifies this`entries, this`drvIds, this`freeIds, this`workers, this`workersUp, table.Repr
      ensures Valid() && fresh(table.Repr - old(table.Repr))
      ensures workers == old(workers)[w := old(workers)[w].(up := false, running := [])]
      ensures |entries| == |old(entries)|
      ensures forall d :: 0 <= d < |entries| ==> entries[d] == Lost(old(entries)[d], w)
      ensures Table(entries, drvIds) == LostTable(old(Table(entries, drvIds)), w)
    {
      hide IdsOk, QueuesOk, RunningOk, FreeOk, FollowsOk, AddrsOk, CountUp, SystemTable.Valid, SameQueues, Table,
        LostTable;
      WorkerFacts(entries, workers, w);
      if workers[w].up {
        workersUp := workersUp - 1;
      }
      var drvs := workers[w].running;
      ghost var run := workers[w := workers[w].(up := true)];   // still running drvs[i..]
      RunningWorker(entries, workers, w, run[w]);
      ChangeWorker(w, workers[w].(up := false), {});
      QueuesSame(entries, old(table.view), table.view, {});
      SlotsOfDown(workers[w], workers[w].(running := []));
      FreeWorker(workers, table.view, {}, w, workers[w].(running := []));
      AddrsUpdate(workers, workerIds, w, workers[w].(running := []));
      CountUpUpdate(workers, w, workers[w].(running := []));
      workers := workers[w := workers[w].(running := [])];
      var i := 0;
      while i < |drvs|
        invariant 0 <= i <= |drvs|
        invariant Objects() && fresh(table.Repr - old(table.Repr))
        invariant IdsOk(entries, drvIds, freeIds) && QueuesOk(entries, table.view, {})
        invariant FreeOk(workers, table.view, {}) && FollowsOk(entries, follows)
        invariant workers == old(workers)[w := old(workers)[w].(up := false, running := [])]
        invariant AddrsOk(workers, workerIds) && workersUp == CountUp(workers)
        invariant run == old(workers)[w := old(workers)[w].(up := true, running := drvs[i..])]
        invariant RunningOk(entries, run)
        invariant |entries| == |old(entries)|
        invariant forall d :: 0 <= d < |entries| ==>
          entries[d] == if d in drvs[..i] then Lost(old(entries)[d], w) else old(entries)[d]
      {
        var d := drvs[i];
        WorkerFacts(entries, run, w);
        assert d == run[w].running[0];
        assert drvs[..i + 1] == drvs[..i] + [d] && drvs[i..][1..] == drvs[i + 1..];
        WithoutHead(drvs[i..]);
        TakeOff(d, w, entries[d].value.avoid, run);
        run := run[w := run[w].(running := drvs[i + 1..])];
        i := i + 1;
      }
      assert drvs[..i] == drvs && drvs[i..] == [];
      RunningWorker(entries, run, w, workers[w]);
      assert workers == run[w := workers[w]];
      TableOfLost(old(entries), old(drvIds), old(freeIds), entries, drvIds, freeIds, w);
    }

    ghost predicate SameRecords(before: seq<Worker>)
      reads this
    {
      && |workers| == |before|
      && forall v :: 0 <= v < |workers| ==> workers[v] == before[v].(running := workers[v].running)
    }

    /** Worker w reports that it runs `path`. */
    method Adopt(w: WorkerId, path: PathKey, assignId: nat) returns (d: DrvId, sup: Option<Superseded>)
      requires Objects()
      requires IdsOk(entries, drvIds, freeIds) && QueuesOk(entries, table.view, {})
      requires RunningOk(entries, workers) && FreeOk(workers, table.view, {w}) && FollowsOk(entries, follows)
      requires AddrsOk(workers, workerIds) && workersUp == CountUp(workers)
      requires 0 <= w < |workers| && workers[w].up
      modifies this`entries, this`drvIds, this`freeIds, this`workers, table.Repr
      ensures Objects() && fresh(table.Repr - old(table.Repr))
      ensures IdsOk(entries, drvIds, freeIds) && QueuesOk(entries, table.view, {})
      ensures RunningOk(entries, workers) && FreeOk(workers, table.view, {w}) && FollowsOk(entries, follows)
      ensures AddrsOk(workers, workerIds) && workersUp == CountUp(workers)
      ensures Table(entries, drvIds) == old(Table(entries, drvIds))[path := Adopted(old(At(path)), path, w, assignId)]
      ensures Live(entries, d) && entries[d].value.path == path
      ensures forall x :: Live(old(entries), x) ==>
        Live(entries, x) && entries[x].value.path == old(entries)[x].value.path
      ensures forall x :: Live(entries, x) && x != d ==> Live(old(entries), x)
      ensures old(At(path)).Some? ==> Live(old(entries), d)
      ensures sup == Supersedes(old(At(path)), d, w)
      ensures SameRecords(old(workers))
    {
      hide IdsOk, QueuesOk, RunningOk, FreeOk, FollowsOk, AddrsOk, CountUp, SystemTable.Valid, SameQueues, Table;
      d := Intern(path, NewEntry(path));
      ghost var dirty := if path in old(drvIds) then {} else {d};
      var e := entries[d].value;
      sup := None;
      if e.worker.Some? && e.worker != Some(w) {
        sup := Some(Superseded(d, e.worker));
        RunningLeave(entries, workers, d, e.(worker := None, assignId := assignId));
        ChangeWorker(e.worker.value, workers[e.worker.value].(running := Without(workers[e.worker.value].running, d)),
          {w});
        QueuesSame(entries, old(table.view), table.view, dirty);
      } else if e.worker.None? {
        RunningKeep(entries, workers, d, e.(assignId := assignId));
        if e.followers != [] {
          sup := Some(Superseded(d, None));
        }
      }
      Settle(d, e.(worker := Some(w), assignId := assignId), w, dirty);
    }

    /** Records that `d` runs on w; its former worker's running list no longer names it. */
    method Settle(d: DrvId, e: Entry, w: WorkerId, ghost dirty: set<DrvId>)
      requires Objects()
      requires IdsOk(entries, drvIds, freeIds) && QueuesOk(entries, table.view, dirty) && dirty <= {d}
      requires FreeOk(workers, table.view, {w}) && FollowsOk(entries, follows)
      requires AddrsOk(workers, workerIds)
      requires 0 <= w < |workers| && workers[w].up && Live(entries, d)
      requires e == entries[d].value.(worker := Some(w), assignId := e.assignId)
      requires if entries[d].value.worker == Some(w) then RunningOk(entries, workers)
               else RunningOk(entries[d := Some(e.(worker := None))], workers)
      modifies this`entries, this`workers, table.Repr
      ensures Objects() && fresh(table.Repr - old(table.Repr))
      ensures IdsOk(entries, drvIds, freeIds) && QueuesOk(entries, table.view, {})
      ensures RunningOk(entries, workers) && FreeOk(workers, table.view, {w}) && FollowsOk(entries, follows)
      ensures AddrsOk(workers, workerIds) && CountUp(workers) == old(CountUp(workers))
      ensures entries == old(entries)[d := Some(e)]
      ensures Table(entries, drvIds) == old(Table(entries, drvIds))[e.path := e]
      ensures SameRecords(old(workers))
    {
      hide IdsOk, QueuesOk, RunningOk, FreeOk, FollowsOk, AddrsOk, CountUp, SystemTable.Valid, SameQueues, Table,
        SameFree, KeysBut, InQueue;
      assert dirty + {d} == {d} && {d} - {d} == {} && {w} + {w} == {w};
      IdsUpdate(entries, drvIds, freeIds, d, e);
      TableUpdate(entries, drvIds, freeIds, d, e);
      FollowsKeep(entries, follows, d, e);
      QueuesUpdate(entries, table.view, dirty, d, e);
      ghost var aside := entries[d := Some(e.(worker := None))];
      if entries[d].value.worker == Some(w) {
        RunningKeep(entries, workers, d, e);
        WorkerFacts(entries, workers, w);
      } else {
        RunningPlace(aside, workers, d, e, w);
        WorkerFacts(aside, workers, w);
        assert aside[d := Some(e)] == entries[d := Some(e)];
      }
      entries := entries[d := Some(e)];
      QueuesErase(entries, table.view, {d}, d);
      FreeSame(workers, table.view, EraseKey(table.view, e.system, d), {w});
      table.QueueErase(e.system, d);
      if d !in workers[w].running {
        var wkr := workers[w].(running := workers[w].running + [d]);
        FreeWorker(workers, table.view, {w}, w, wkr);
        AddrsUpdate(workers, workerIds, w, wkr);
        CountUpUpdate(workers, w, wkr);
        workers := workers[w := wkr];
      }
    }

    /** The id of an address, with a fresh record if it was unknown. */
    method WorkerIdFor(addr: string) returns (w: WorkerId)
      requires Valid()
      modifies this`workers, this`workerIds
      ensures Valid()
      ensures 0 <= w < |workers| && workers[w].addr == addr && addr in workerIds && workerIds[addr] == w
      ensures if addr in old(workerIds) then workers == old(workers) && workerIds == old(workerIds)
              else workers == old(workers) + [Worker(addr, [], [], 0, false, false, [])]
    {
      hide IdsOk, QueuesOk, RunningOk, FreeOk, FollowsOk, CountUp, SystemTable.Valid;
      if addr in workerIds {
        return workerIds[addr];
      }
      hide AddrsOk;
      var wkr := Worker(addr, [], [], 0, false, false, []);
      RunningNewWorker(entries, workers, wkr);
      FreeNewWorker(workers, table.view, wkr);
      AddrsGrow(workers, workerIds, wkr);
      CountUpGrow(workers, wkr);
      w := |workers|;
      workers := workers + [wkr];
      workerIds := workerIds[addr := w];
    }

    /** Makes w known, with zero slots, to each system it now offers. */
    method PushSystems(w: WorkerId, wkr: Worker)
      requires Objects()
      requires 0 <= w < |workers| && !workers[w].TakesWork() && FreeOk(workers, table.view, {})
      modifies table.Repr
      ensures Objects() && fresh(table.Repr - old(table.Repr))
      ensures FreeOk(workers[w := wkr], table.view, {w}) && SameQueues(old(table.view), table.view)
    {
      hide FreeOk, FreeIdle, SystemTable.Valid, InQueue;
      FreeIdleStart(workers, table.view, w);
      var i := 0;
      while i < |wkr.systems|
        invariant 0 <= i <= |wkr.systems|
        invariant Objects() && fresh(table.Repr - old(table.Repr))
        invariant FreeIdle(workers, table.view, w) && SameQueues(old(table.view), table.view)
        invariant forall j :: 0 <= j < i ==> Tracked(table.view, wkr.systems[j], w)
      {
        FreeIdlePush(workers, table.view, w, wkr.systems[i]);
        table.FreePush(wkr.systems[i], w);
        i := i + 1;
      }
      FreeIdleEnd(workers, table.view, w, wkr);
    }

    /** A worker (re)connects and says what it offers and what it is running or expecting. */
    method Hello(addr: string, names: seq<string>, features: seq<string>, maxJobs: nat, running: seq<(PathKey, nat)>)
      returns (id: Option<WorkerId>, superseded: seq<Superseded>)
      requires Valid()
      modifies this`entries, this`drvIds, this`freeIds, this`workers, this`workerIds, this`workersUp, table.Repr
      ensures Valid() && fresh(table.Repr - old(table.Repr))
      ensures id.None? <==> addr == ""
      ensures id.None? ==> entries == old(entries) && workers == old(workers)
      ensures id.Some? ==> var w := id.value;
        && 0 <= w < |workers| && addr in workerIds && workerIds[addr] == w
        && workers[w] == Worker(addr, names, features, if maxJobs < MAX_SLOTS then maxJobs else MAX_SLOTS,
                                true, false, workers[w].running)
        && Table(entries, drvIds) == AdoptAll(LostTable(old(Table(entries, drvIds)), w), w, running)
        && SupersededOk(entries, LostTable(old(Table(entries, drvIds)), w), w, running, superseded)
        && |old(workers)| <= |workers| <= |old(workers)| + 1
        && forall v :: 0 <= v < |old(workers)| && v != w ==>
            workers[v] == old(workers)[v].(running := workers[v].running)
    {
      hide IdsOk, QueuesOk, RunningOk, FreeOk, FollowsOk, AddrsOk, CountUp, SystemTable.Valid, SameQueues, Table,
        LostTable, AdoptAll, SupersededOk;
      superseded := [];
      if addr == "" {
        return None, superseded;
      }
      var w := WorkerIdFor(addr);
      if workers[w].up {
        WorkerGone(w);
      } else {
        LostNothing(entries, drvIds, freeIds, workers, w);
      }
      Welcome(w, Worker(addr, names, features, if maxJobs < MAX_SLOTS then maxJobs else MAX_SLOTS, true, false, []));
      superseded := AdoptReported(w, running);
      return Some(w), superseded;
    }

    method AdoptReported(w: WorkerId, running: seq<(PathKey, nat)>) returns (superseded: seq<Superseded>)
      requires Objects()
      requires IdsOk(entries, drvIds, freeIds) && QueuesOk(entries, table.view, {})
      requires RunningOk(entries, workers) && FreeOk(workers, table.view, {w}) && FollowsOk(entries, follows)
      requires AddrsOk(workers, workerIds) && workersUp == CountUp(workers)
      requires 0 <= w < |workers| && workers[w].up
      modifies this`entries, this`drvIds, this`freeIds, this`workers, table.Repr
      ensures Valid() && fresh(table.Repr - old(table.Repr))
      ensures Table(entries, drvIds) == AdoptAll(old(Table(entries, drvIds)), w, running)
      ensures SupersededOk(entries, old(Table(entries, drvIds)), w, running, superseded)
      ensures SameRecords(old(workers))
    {
      hide IdsOk, QueuesOk, RunningOk, FreeOk, FollowsOk, AddrsOk, CountUp, SystemTable.Valid, SameQueues, Table,
        AdoptAll, SupersededOk;
      superseded := [];
      ghost var lost := Table(entries, drvIds);
      NothingReported(entries, lost, w);
      var i := 0;
      while i < |running|
        invariant 0 <= i <= |running|
        invariant Objects() && fresh(table.Repr - old(table.Repr))
        invariant IdsOk(entries, drvIds, freeIds) && QueuesOk(entries, table.view, {})
        invariant RunningOk(entries, workers) && FreeOk(workers, table.view, {w}) && FollowsOk(entries, follows)
        invariant AddrsOk(workers, workerIds) && workersUp == CountUp(workers)
        invariant SameRecords(old(workers))
        invariant Table(entries, drvIds) == AdoptAll(lost, w, running[..i])
        invariant SupersededOk(entries, lost, w, running[..i], superseded)
      {
        AdoptAllAt(lost, w, running[..i], running[i].0);
        ghost var before := entries;
        var d, sup := Adopt(w, running[i].0, running[i].1);
        OnePath(entries, drvIds, freeIds, d);
        SupersededStep(before, entries, lost, w, running, superseded, i, d);
        AdoptNext(lost, w, running, i);
        if sup.Some? {
          superseded := superseded + [sup.value];
        }
        i := i + 1;
      }
      assert running[..i] == running;
      ghost var view := table.view;
      assert {} + {w} == {w};
      RefreshFree(w, {});
      QueuesSame(entries, view, table.view, {});
    }

    /** The record of a worker that just said Hello, before its running drvs. */
    method Welcome(w: WorkerId, wkr: Worker)
      requires Valid() && 0 <= w < |workers| && !workers[w].up && !workers[w].TakesWork()
      requires wkr.addr == workers[w].addr && wkr.up && wkr.running == [] && 0 <= wkr.maxJobs <= MAX_SLOTS
      modifies this`workers, this`workersUp, table.Repr
      ensures Objects() && fresh(table.Repr - old(table.Repr))
      ensures IdsOk(entries, drvIds, freeIds) && QueuesOk(entries, table.view, {})
      ensures RunningOk(entries, workers) && FreeOk(workers, table.view, {w}) && FollowsOk(entries, follows)
      ensures AddrsOk(workers, workerIds) && workersUp == CountUp(workers)
      ensures workers == old(workers)[w := wkr]
    {
      hide IdsOk, QueuesOk, RunningOk, FreeOk, FollowsOk, AddrsOk, CountUp, SystemTable.Valid, SameQueues;
      WorkerFacts(entries, workers, w);
      RunningWorker(entries, workers, w, wkr);
      AddrsUpdate(workers, workerIds, w, wkr);
      CountUpUpdate(workers, w, wkr);
      PushSystems(w, wkr);
      QueuesSame(entries, old(table.view), table.view, {});
      workers := workers[w := wkr];
      workersUp := workersUp + 1;
    }

    // ---------------------------------------------------------- dispatch

    /** Slots worker w has free, read from its first system's index. */
    function FreeOf(w: WorkerId): int
      reads this, table, table.Repr
      requires Objects() && 0 <= w < |workers|
    {
      if workers[w].systems == [] then 0 else table.FreeGet(workers[w].systems[0], w)
    }

    lemma FreeOfIs(w: WorkerId)
      requires Objects() && 0 <= w < |workers| && FreeOk(workers, table.view, {}) && RunningOk(entries, workers)
      ensures workers[w].systems != [] ==> FreeOf(w) == FreeSlots(workers[w])
      ensures FreeOf(w) > 0 ==> workers[w].TakesWork() && |workers[w].running| < workers[w].maxJobs
    {
    }

    /** A capable worker that no capable one beats in free slots. */
    method EmptiestFor(e: Entry) returns (best: Option<WorkerId>)
      requires Objects() && RunningOk(entries, workers) && FreeOk(workers, table.view, {})
      ensures best.None? ==> forall w :: 0 <= w < |workers| ==> !Capable(workers[w], e)
      ensures best.Some? ==> 0 <= best.value < |workers| && Capable(workers[best.value], e)
      ensures best.Some? ==> forall w :: 0 <= w < |workers| && Capable(workers[w], e) ==>
        FreeSlots(workers[w]) <= FreeSlots(workers[best.value])
    {
      hide RunningOk, FreeOk, SystemTable.Valid;
      forall w
        ensures Tracked(table.view, e.system, w) && table.view[e.system].free[w] > 0 ==>
          0 <= w < |workers| && e.system in workers[w].systems
        ensures 0 <= w < |workers| && Offers(workers[w], e) ==>
          Tracked(table.view, e.system, w) && (table.view[e.system].free[w] > 0 <==> Capable(workers[w], e))
          && table.view[e.system].free[w] == FreeSlots(workers[w]) <= MAX_SLOTS
      {
        IndexMeansCapable(entries, workers, table.view, w, e);
      }
      best := None;
      if !table.Has(e.system) {
        return;
      }
      if e.features == [] {
        best := table.Emptiest(e.system);
        return;
      }
      var w := 0;
      while w < |workers|
        invariant 0 <= w <= |workers|
        invariant best.None? ==> forall v :: 0 <= v < w ==> !Capable(workers[v], e)
        invariant best.Some? ==> 0 <= best.value < |workers| && Capable(workers[best.value], e)
        invariant best.Some? ==> forall v :: 0 <= v < w && Capable(workers[v], e) ==>
          FreeSlots(workers[v]) <= FreeSlots(workers[best.value])
      {
        if workers[w].up && table.FreeGet(e.system, w) > 0 && Offers(workers[w], e)
           && (best.None? || table.FreeGet(e.system, w) > table.FreeGet(e.system, best.value)) {
          best := Some(w);
        }
        w := w + 1;
      }
    }

    /** No other worker that may run the entry has more free slots, but the one to avoid. */
    ghost predicate MostFree(e: Entry, best: WorkerId)
      reads this
      requires 0 <= best < |workers|
    {
      forall w :: 0 <= w < |workers| && Capable(workers[w], e) && e.avoid != Some(w) ==>
        FreeSlots(workers[w]) <= FreeSlots(workers[best])
    }

    /** Like EmptiestFor without the worker to avoid, which comes back only if it is alone. */
    method Avoiding(e: Entry) returns (r: Option<WorkerId>)
      requires Objects() && RunningOk(entries, workers) && FreeOk(workers, table.view, {})
      requires e.avoid.Some?
      ensures r.None? ==> OtherTakes(workers, e, e.avoid.value)
      ensures r.None? ==> forall w :: 0 <= w < |workers| && Capable(workers[w], e) ==> e.avoid == Some(w)
      ensures r.Some? && r != e.avoid ==>
        0 <= r.value < |workers| && Capable(workers[r.value], e) && MostFree(e, r.value)
      ensures r == e.avoid ==> !OtherTakes(workers, e, e.avoid.value)
    {
      hide RunningOk, FreeOk, SystemTable.Valid, FreeOf;
      var best: Option<WorkerId> := None;
      var others := false;
      var w := 0;
      while w < |workers|
        invariant 0 <= w <= |workers|
        invariant others <==>
          exists v :: 0 <= v < w && Some(v) != e.avoid && workers[v].TakesWork() && Offers(workers[v], e)
        invariant best.Some? ==>
          others && best != e.avoid && 0 <= best.value < |workers| && Capable(workers[best.value], e)
        invariant best.None? ==> forall v :: 0 <= v < w && Capable(workers[v], e) ==> e.avoid == Some(v)
        invariant best.Some? ==> forall v :: 0 <= v < w && Capable(workers[v], e) && e.avoid != Some(v) ==>
          FreeSlots(workers[v]) <= FreeSlots(workers[best.value])
      {
        if Some(w) != e.avoid && workers[w].TakesWork() && Offers(workers[w], e) {
          others := true;
          FreeOfIs(w);
          if best.Some? {
            FreeOfIs(best.value);
          }
          SlotsMeanRoom(entries, workers, w);
          if FreeOf(w) > 0 && (best.None? || FreeOf(w) > FreeOf(best.value)) {
            best := Some(w);
          }
        }
        w := w + 1;
      }
      if best.Some? || others {
        return best;
      }
      return e.avoid;
    }

    /** Workers the locality rule may prefer for an entry. */
    ghost function Preferable(e: Entry): set<WorkerId>
      reads this, table, table.Repr
      requires Objects()
    {
      set w | 0 <= w < |workers| && Some(w) != e.avoid && workers[w].up && FreeOf(w) > 0 && Offers(workers[w], e)
    }

    /** The candidates that built inputs of the entry, with the bytes each holds. */
    method Candidates(e: Entry) returns (cands: seq<(WorkerId, real)>)
      requires Objects()
      ensures CandidatesOk(cands, e.inputs, lastBuilder, Preferable(e))
    {
      hide SystemTable.Valid, FreeOf, CandidatesOk;
      cands := [];
      ghost var ok := Preferable(e);
      NoCandidates(lastBuilder, ok);
      assert e.inputs[..0] == [];
      var i := 0;
      while i < |e.inputs|
        invariant 0 <= i <= |e.inputs|
        invariant CandidatesOk(cands, e.inputs[..i], lastBuilder, ok)
      {
        ghost var before, at := cands, 0;
        if e.inputs[i] in lastBuilder {
          var (w, size) := lastBuilder[e.inputs[i]];
          if 0 <= w < |workers| && Some(w) != e.avoid && workers[w].up && FreeOf(w) > 0 && Offers(workers[w], e) {
            var k := 0;
            while k < |cands| && cands[k].0 != w
              invariant 0 <= k <= |cands|
              invariant forall j :: 0 <= j < k ==> cands[j].0 != w
            {
              k := k + 1;
            }
            at := k;
            if k == |cands| {
              cands := cands + [(w, size as real)];
            } else {
              cands := cands[k := (w, cands[k].1 + size as real)];
            }
          }
        }
        CandidatesStep(before, e.inputs, lastBuilder, ok, i, at, cands);
        i := i + 1;
      }
      assert e.inputs[..i] == e.inputs;
    }

    /** The worker for an entry, if one should take it now: the most free one, unless another
        that built some of its inputs scores higher. */
    method Pick(e: Entry) returns (picked: Option<WorkerId>, ghost best: WorkerId, ghost score: real)
      requires Objects() && RunningOk(entries, workers) && FreeOk(workers, table.view, {})
      ensures picked.None? ==> Stuck(workers, e)
      ensures picked.Some? ==> 0 <= picked.value < |workers| && Capable(workers[picked.value], e)
      ensures picked.Some? && e.avoid == picked ==> !OtherTakes(workers, e, picked.value)
      ensures picked.Some? ==>
        && 0 <= best < |workers| && Capable(workers[best], e) && MostFree(e, best)
        && TopScore(e, best, picked.value, score)
    {
      hide RunningOk, FreeOk, SystemTable.Valid, FreeOf, OtherTakes, FreeSlots, TopScore;
      var first := EmptiestFor(e);
      if first.Some? && first == e.avoid {
        first := Avoiding(e);
      }
      if first.None? {
        return None, 0, 0.0;
      }
      var p, scr := Prefer(e, first.value);
      return Some(p), first.value, scr;
    }

    /** Among the worker to start from, which counts without its bytes, and those that hold inputs of
        the entry, `picked` has the highest score. */
    ghost predicate TopScore(e: Entry, best: WorkerId, picked: WorkerId, score: real)
      reads this, table, table.Repr
      requires Objects() && 0 <= best < |workers| && 0 <= picked < |workers|
    {
      var top := if FreeOf(best) > 1 then FreeOf(best) as real else 1.0;
      && Score(0.0, FreeOf(best), top) <= score
      && (forall w :: w in Preferable(e) && HoldsInput(e.inputs, lastBuilder, w) ==>
          Score(LocalBytes(e.inputs, lastBuilder, w), FreeOf(w), top) <= score)
      && ((picked == best && score == Score(0.0, FreeOf(best), top))
          || (picked in Preferable(e)
              && score == Score(LocalBytes(e.inputs, lastBuilder, picked), FreeOf(picked), top)))
    }

    /** Weighs input bytes against free slots. */
    method Prefer(e: Entry, best: WorkerId) returns (picked: WorkerId, score: real)
      requires Objects() && RunningOk(entries, workers) && FreeOk(workers, table.view, {})
      requires 0 <= best < |workers| && Capable(workers[best], e)
      ensures 0 <= picked < |workers| && Capable(workers[picked], e) && (picked == best || Some(picked) != e.avoid)
      ensures TopScore(e, best, picked, score)
    {
      hide RunningOk, FreeOk, SystemTable.Valid, FreeOf, Score, LocalBytes;
      var top := if FreeOf(best) > 1 then FreeOf(best) as real else 1.0;
      var cands := Candidates(e);
      picked := best;
      score := Score(0.0, FreeOf(best), top);
      var i := 0;
      while i < |cands|
        invariant 0 <= i <= |cands|
        invariant 0 <= picked < |workers|
        invariant Score(0.0, FreeOf(best), top) <= score
        invariant forall j :: 0 <= j < i ==> Score(cands[j].1, FreeOf(cands[j].0), top) <= score
        invariant (picked == best && score == Score(0.0, FreeOf(best), top))
          || (picked in Preferable(e) && score == Score(LocalBytes(e.inputs, lastBuilder, picked), FreeOf(picked), top))
      {
        var scr := Score(cands[i].1, FreeOf(cands[i].0), top);
        if scr > score {
          score := scr;
          picked := cands[i].0;
        }
        i := i + 1;
      }
      FreeOfIs(picked);
    }

    /** The system with the most urgent head among those with a free slot. */
    method BestSystem() returns (best: Option<(string, HeapOrder.Item)>)
      requires Objects()
      ensures best.None? ==> forall n, d :: InQueue(table.view, n, d) ==> !HasFreeSlot(table.view, n)
      ensures best.Some? ==> var (n, top) := best.value;
        && InQueue(table.view, n, top.id) && QueueOf(table.view, n)[top.id] == top.key
        && HasFreeSlot(table.view, n) && MostUrgent(table.view, top.key)
    {
      hide SystemTable.Valid, HasFreeSlot, Tracked;
      best := None;
      var todo := table.Names();
      while todo != {}
        invariant todo <= table.view.Keys
        invariant best.None? ==> forall n, d :: InQueue(table.view, n, d) && n !in todo ==> !HasFreeSlot(table.view, n)
        invariant best.Some? ==> var (n, top) := best.value;
          && InQueue(table.view, n, top.id) && QueueOf(table.view, n)[top.id] == top.key
          && HasFreeSlot(table.view, n)
          && forall m, d :: InQueue(table.view, m, d) && m !in todo && HasFreeSlot(table.view, m) ==>
              top.key <= QueueOf(table.view, m)[d]
        decreases todo
      {
        var n :| n in todo;
        var empty := table.QueueEmpty(n);
        if !empty {
          var top := table.QueueTop(n);
          var some := table.HasFree(n);
          if some && (best.None? || top.key < best.value.1.key) {
            best := Some((n, top));
          }
        }
        todo := todo - {n};
      }
    }

    /** The agreement of the tables in the middle of a dispatch. */
    ghost predicate Mid(skipped: seq<Skipped>)
      reads this, table, table.Repr
    {
      && Objects()
      && IdsOk(entries, drvIds, freeIds)
      && QueuesOk(entries, table.view, SkipSet(skipped))
      && RunningOk(entries, workers)
      && FreeOk(workers, table.view, {})
      && FollowsOk(entries, follows)
      && AddrsOk(workers, workerIds)
      && workersUp == CountUp(workers)
      && SkipsOk(entries, table.view, skipped)
      && AllStuck(entries, workers, SkipSet(skipped))
    }

    /** What was placed so far, starting from `entries0`. */
    ghost predicate Placed(entries0: Entries, id0: nat, out: seq<Assign>)
      reads this
    {
      && lastAssignId == id0 + |out|
      && Placements(entries0, entries, workers, out, id0)
      && Suitable(entries, workers, out)
      && NoInversion(entries, workers, out)
    }

    ghost function Waiting(skipped: seq<Skipped>): set<DrvId>
      reads this
    {
      set d | 0 <= d < |entries| && Unplaced(entries, d) && d !in SkipSet(skipped)
    }

    /** Worker w gets an entry that was taken out of its queue. */
    method Place(d: DrvId, w: WorkerId, ghost skipped: seq<Skipped>) returns (a: Assign)
      requires Objects() && IdsOk(entries, drvIds, freeIds) && RunningOk(entries, workers)
      requires QueuesOk(entries, table.view, SkipSet(skipped) + {d}) && d !in SkipSet(skipped)
      requires FreeOk(workers, table.view, {}) && FollowsOk(entries, follows)
      requires AddrsOk(workers, workerIds) && workersUp == CountUp(workers)
      requires SkipsOk(entries, table.view, skipped) && AllStuck(entries, workers, SkipSet(skipped))
      requires Unplaced(entries, d) && (forall n :: !InQueue(table.view, n, d))
      requires 0 <= w < |workers| && workers[w].up
      modifies this`entries, this`workers, this`lastAssignId, table.Repr
      ensures Mid(skipped) && fresh(table.Repr - old(table.Repr))
      ensures lastAssignId == old(lastAssignId) + 1
      ensures a == Assign(d, w, lastAssignId, old(entries)[d].value.followers)
      ensures entries == old(entries)[d := Some(old(entries)[d].value.(worker := Some(w), assignId := lastAssignId))]
      ensures workers == WithRun(old(workers), w, d)
    {
      hide IdsOk, QueuesOk, RunningOk, FreeOk, FollowsOk, AddrsOk, CountUp, SystemTable.Valid, SameQueues, SkipSet,
        SkipsOk, AllStuck, InQueue;
      var e := entries[d].value.(worker := Some(w), assignId := lastAssignId + 1);
      IdsUpdate(entries, drvIds, freeIds, d, e);
      QueuesPlace(entries, table.view, SkipSet(skipped), d, e);
      RunningPlace(entries, workers, d, e, w);
      FollowsKeep(entries, follows, d, e);
      SkipsPlace(entries, table.view, skipped, d, e);
      AllStuckPlace(entries, workers, SkipSet(skipped), d, e, w);
      lastAssignId := lastAssignId + 1;
      entries := entries[d := Some(e)];
      ChangeWorker(w, workers[w].(running := workers[w].running + [d]), {});
      QueuesSame(entries, old(table.view), table.view, SkipSet(skipped));
      SkipsSame(entries, old(table.view), table.view, skipped);
      a := Assign(d, w, lastAssignId, e.followers);
    }

    /** Places the head of a queue, or sets it aside if no worker should take it now. */
    method DispatchHead(n: string, top: HeapOrder.Item, skipped: seq<Skipped>, out: seq<Assign>,
                        ghost entries0: Entries, ghost id0: nat)
      returns (skipped': seq<Skipped>, out': seq<Assign>)
      requires Mid(skipped) && Placed(entries0, id0, out)
      requires InQueue(table.view, n, top.id) && QueueOf(table.view, n)[top.id] == top.key
      requires MostUrgent(table.view, top.key)
      modifies this`entries, this`workers, this`lastAssignId, table.Repr
      ensures Mid(skipped') && Placed(entries0, id0, out') && fresh(table.Repr - old(table.Repr))
      ensures Waiting(skipped') < old(Waiting(skipped))
      ensures SameRecords(old(workers))
      ensures forall w :: 0 <= w < |workers| && |workers[w].running| > workers[w].maxJobs ==>
        workers[w] == old(workers)[w]
    {
      hide IdsOk, QueuesOk, RunningOk, FreeOk, FollowsOk, AddrsOk, CountUp, SystemTable.Valid, SameQueues, SkipSet,
        SkipsOk, AllStuck,
        Placements, Suitable, NoInversion, MostUrgent, InQueue, QueueOf, Stuck, OtherTakes, SameFree, KeysBut, Prio,
        TopScore, MostFree;
      var d := top.id;
      HeadIsDispatchable(entries, table.view, skipped, n, d);
      var e := entries[d].value;
      ghost var view := table.view;
      SkipsErase(entries, view, skipped, n, d);
      QueuesErase(entries, view, SkipSet(skipped), d);
      FreeSame(workers, view, EraseKey(view, n, d), {});
      table.QueueErase(n, d);
      var w, _, _ := Pick(e);
      if w.None? {
        var s := Skipped(n, d, Prio(e));
        SkipOne(entries, table.view, s);
        SkipsAdd(entries, table.view, skipped, s);
        SkipSetAppend(skipped, s);
        AllStuckAdd(entries, workers, SkipSet(skipped), d);
        assert Waiting(skipped + [s]) == Waiting(skipped) - {d} && d in Waiting(skipped);
        return skipped + [s], out;
      }
      ghost var a := Assign(d, w.value, lastAssignId + 1, e.followers);
      PlacementsStep(entries0, entries, workers, out, id0, a);
      InversionStep(entries, workers, view, SkipSet(skipped), out, a);
      SuitableStep(entries, workers, out, a);
      assert d in Waiting(skipped);
      var asg := Place(d, w.value, skipped);
      assert Waiting(skipped) == old(Waiting(skipped)) - {d};
      return skipped, out + [asg];
    }

    /** Places entries, the most urgent of all systems first, until every one left is stuck. */
    method Dispatch() returns (out: seq<Assign>)
      requires Valid()
      modifies this`entries, this`workers, this`lastAssignId, table.Repr
      ensures Valid() && fresh(table.Repr - old(table.Repr))
      ensures Placed(old(entries), old(lastAssignId), out)
      ensures forall d :: Unplaced(entries, d) ==> Stuck(workers, entries[d].value)
      ensures SameRecords(old(workers))
      ensures forall w :: 0 <= w < |workers| && |workers[w].running| > workers[w].maxJobs ==>
        workers[w] == old(workers)[w]
    {
      hide IdsOk, QueuesOk, RunningOk, FreeOk, FollowsOk, AddrsOk, CountUp, SystemTable.Valid, SkipsOk, AllStuck,
        Placements, Suitable, NoInversion, MostUrgent, InQueue, QueueOf, Stuck, HasFreeSlot;
      out := [];
      var skipped: seq<Skipped> := [];
      assert SkipSet(skipped) == {};
      NothingPlaced(entries, table.view, workers, lastAssignId);
      while true
        invariant Mid(skipped) && Placed(old(entries), old(lastAssignId), out) && fresh(table.Repr - old(table.Repr))
        invariant SameRecords(old(workers))
        invariant forall w :: 0 <= w < |workers| && |workers[w].running| > workers[w].maxJobs ==>
          workers[w] == old(workers)[w]
        decreases Waiting(skipped)
      {
        var best := BestSystem();
        if best.None? {
          break;
        }
        var (n, top) := best.value;
        skipped, out := DispatchHead(n, top, skipped, out, old(entries), old(lastAssignId));
      }
      forall d | Unplaced(entries, d)
        ensures Stuck(workers, entries[d].value)
      {
        NothingLeft(entries, workers, table.view, SkipSet(skipped), d);
      }
      PutBack(skipped);
    }

    /** Returns the entries a dispatch set aside to their queues. */
    method PutBack(skipped: seq<Skipped>)
      requires Mid(skipped)
      modifies table.Repr
      ensures Valid() && fresh(table.Repr - old(table.Repr))
    {
      hide IdsOk, QueuesOk, RunningOk, FreeOk, FollowsOk, AddrsOk, CountUp, SystemTable.Valid, AllStuck, SameFree,
        KeysBut, Prio, InQueue;
      var i := 0;
      assert skipped[0..] == skipped;
      while i < |skipped|
        invariant 0 <= i <= |skipped|
        invariant Objects() && fresh(table.Repr - old(table.Repr))
        invariant QueuesOk(entries, table.view, SkipSet(skipped[i..])) && FreeOk(workers, table.view, {})
      {
        var s := skipped[i];
        SkipSetTail(skipped, i);
        QueuesEnqueue(entries, table.view, SkipSet(skipped[i..]), s.drv);
        FreeSame(workers, table.view, SetKey(table.view, s.system, s.drv, s.key), {});
        table.QueueSet(s.system, s.drv, s.key);
        i := i + 1;
      }
      assert SkipSet(skipped[i..]) == {};
    }

    // ------------------------------------------------------ placeability

    /** Exactly the queued entries whose flag is wrong. One lookup serves all entries with the same
        system and features. */
    method PlaceabilityChanges() returns (changed: seq<DrvId>)
      requires Valid()
      modifies this`entries
      ensures Valid()
      ensures FlagsOk(entries, workers, {})
      ensures |entries| == |old(entries)|
      ensures forall d :: 0 <= d < |entries| ==>
        entries[d] == if d in changed then Flipped(old(entries)[d]) else old(entries)[d]
      ensures forall d :: d in changed <==>
        Unplaced(old(entries), d) && old(entries)[d].value.unplaceable == Placeable(workers, old(entries)[d].value)
      ensures NoDup(changed)
    {
      hide IdsOk, QueuesOk, RunningOk, FreeOk, FollowsOk, AddrsOk, CountUp, SystemTable.Valid, Placeable;
      changed := [];
      var byKey: map<(string, seq<string>), bool> := map[];
      var d := 0;
      while d < |entries|
        invariant 0 <= d <= |entries| == |old(entries)|
        invariant Objects() && IdsOk(entries, drvIds, freeIds) && QueuesOk(entries, table.view, {})
        invariant RunningOk(entries, workers) && FollowsOk(entries, follows)
        invariant forall k, e: Entry :: k in byKey && k == (e.system, e.features) ==> byKey[k] == Placeable(workers, e)
        invariant forall x :: 0 <= x < |entries| ==>
          entries[x] == if x in changed then Flipped(old(entries)[x]) else old(entries)[x]
        invariant forall x :: x in changed <==>
          && x < d && Unplaced(old(entries), x)
          && old(entries)[x].value.unplaceable == Placeable(workers, old(entries)[x].value)
        invariant NoDup(changed)
      {
        if Unplaced(entries, d) {
          QueuedEntry(entries, table.view, {}, d);
        }
        if Unplaced(entries, d) && entries[d].value.followers != [] {
          var e := entries[d].value;
          var key := (e.system, e.features);
          if key !in byKey {
            PlaceableByKey(workers, e);
            byKey := byKey[key := Placeable(workers, e)];
          }
          if e.unplaceable == byKey[key] {
            Reflag(d, !byKey[key]);
            NoDupAppend(changed, d);
            changed := changed + [d];
          }
        }
        d := d + 1;
      }
      forall x | Unplaced(entries, x)
        ensures entries[x].value.unplaceable == !Placeable(workers, entries[x].value)
      {
        PlaceableByKey(workers, old(entries)[x].value);
      }
    }

    /** Notes what went out about an entry. */
    method Reflag(d: DrvId, unplaceable: bool)
      requires Objects() && IdsOk(entries, drvIds, freeIds) && QueuesOk(entries, table.view, {})
      requires RunningOk(entries, workers) && FollowsOk(entries, follows)
      requires Live(entries, d)
      modifies this`entries
      ensures Objects() && IdsOk(entries, drvIds, freeIds) && QueuesOk(entries, table.view, {})
      ensures RunningOk(entries, workers) && FollowsOk(entries, follows)
      ensures entries == old(entries)[d := Some(old(entries)[d].value.(unplaceable := unplaceable))]
    {
      hide IdsOk, QueuesOk, RunningOk, FollowsOk, SystemTable.Valid;
      var e := entries[d].value.(unplaceable := unplaceable);
      IdsUpdate(entries, drvIds, freeIds, d, e);
      QueuesReflag(entries, table.view, d, e);
      RunningKeep(entries, workers, d, e);
      FollowsKeep(entries, follows, d, e);
      entries := entries[d := Some(e)];
    }

    method MarkUnplaceable(d: DrvId)
      requires Valid() && Live(entries, d)
      modifies this`entries
      ensures Valid()
      ensures entries == old(entries)[d := Some(old(entries)[d].value.(unplaceable := true))]
    {
      hide IdsOk, QueuesOk, RunningOk, FreeOk, FollowsOk, AddrsOk, CountUp, SystemTable.Valid;
      Reflag(d, true);
    }
  }
}
