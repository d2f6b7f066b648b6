/** How each single change to the core's tables keeps them in agreement. */
module SchedLemmas {
  import opened Lists
  import opened SchedState

  // ------------------------------------------------------------------ ids

  lemma IdsUpdate(entries: Entries, drvIds: map<PathKey, DrvId>, freeIds: seq<DrvId>, d: DrvId, e: Entry)
    requires IdsOk(entries, drvIds, freeIds)
    requires Live(entries, d) && e.path == entries[d].value.path
    ensures IdsOk(entries[d := Some(e)], drvIds, freeIds)
  {
  }

  lemma IdsRetire(entries: Entries, drvIds: map<PathKey, DrvId>, freeIds: seq<DrvId>, d: DrvId)
    requires IdsOk(entries, drvIds, freeIds)
    requires Live(entries, d)
    ensures IdsOk(entries[d := None], drvIds - {entries[d].value.path}, freeIds + [d])
  {
    NoDupAppend(freeIds, d);
  }

  lemma IdsRecycle(entries: Entries, drvIds: map<PathKey, DrvId>, freeIds: seq<DrvId>, e: Entry)
    requires IdsOk(entries, drvIds, freeIds)
    requires freeIds != [] && e.path !in drvIds
    ensures var d := freeIds[|freeIds| - 1];
      && 0 <= d < |entries| && entries[d].None?
      && IdsOk(entries[d := Some(e)], drvIds[e.path := d], freeIds[..|freeIds| - 1])
  {
    var d := freeIds[|freeIds| - 1];
    assert d in freeIds;
    var rest := freeIds[..|freeIds| - 1];
    assert freeIds == rest + [d] && d !in rest;
    assert forall x :: x in freeIds <==> x == d || x in rest;
  }

  lemma IdsGrow(entries: Entries, drvIds: map<PathKey, DrvId>, freeIds: seq<DrvId>, e: Entry)
    requires IdsOk(entries, drvIds, freeIds)
    requires freeIds == [] && e.path !in drvIds
    ensures IdsOk(entries + [Some(e)], drvIds[e.path := |entries|], freeIds)
  {
  }

  lemma UnknownPath(entries: Entries, drvIds: map<PathKey, DrvId>, path: PathKey)
    requires path !in drvIds
    ensures path !in Table(entries, drvIds)
  {
  }

  lemma KnownPath(entries: Entries, drvIds: map<PathKey, DrvId>, freeIds: seq<DrvId>, path: PathKey)
    requires IdsOk(entries, drvIds, freeIds) && path in drvIds
    ensures Live(entries, drvIds[path]) && entries[drvIds[path]].value.path == path
    ensures path in Table(entries, drvIds) && Table(entries, drvIds)[path] == entries[drvIds[path]].value
  {
  }

  lemma TableAt(entries: Entries, drvIds: map<PathKey, DrvId>, freeIds: seq<DrvId>, d: DrvId)
    requires IdsOk(entries, drvIds, freeIds) && Live(entries, d)
    ensures entries[d].value.path in Table(entries, drvIds)
    ensures Table(entries, drvIds)[entries[d].value.path] == entries[d].value
  {
  }

  lemma TableUpdate(entries: Entries, drvIds: map<PathKey, DrvId>, freeIds: seq<DrvId>, d: DrvId, e: Entry)
    requires IdsOk(entries, drvIds, freeIds)
    requires Live(entries, d) && e.path == entries[d].value.path
    ensures Table(entries[d := Some(e)], drvIds) == Table(entries, drvIds)[e.path := e]
  {
  }

  lemma TableRetire(entries: Entries, drvIds: map<PathKey, DrvId>, freeIds: seq<DrvId>, d: DrvId)
    requires IdsOk(entries, drvIds, freeIds)
    requires Live(entries, d)
    ensures var path := entries[d].value.path;
      Table(entries[d := None], drvIds - {path}) == Table(entries, drvIds) - {path}
  {
  }

  lemma TableRecycle(entries: Entries, drvIds: map<PathKey, DrvId>, freeIds: seq<DrvId>, d: DrvId, e: Entry)
    requires IdsOk(entries, drvIds, freeIds)
    requires 0 <= d < |entries| && entries[d].None? && e.path !in drvIds
    ensures Table(entries[d := Some(e)], drvIds[e.path := d]) == Table(entries, drvIds)[e.path := e]
  {
  }

  lemma TableGrow(entries: Entries, drvIds: map<PathKey, DrvId>, freeIds: seq<DrvId>, e: Entry)
    requires IdsOk(entries, drvIds, freeIds) && e.path !in drvIds
    ensures Table(entries + [Some(e)], drvIds[e.path := |entries|]) == Table(entries, drvIds)[e.path := e]
  {
  }

  // --------------------------------------------------------------- queues

  /** Changing an entry leaves only its own queue position out of date. */
  lemma QueuesUpdate(entries: Entries, systems: Systems, dirty: set<DrvId>, d: DrvId, e: Entry)
    requires QueuesOk(entries, systems, dirty)
    requires Live(entries, d)
    requires e.system == entries[d].value.system || (entries[d].value.worker.Some? && d !in dirty)
    ensures QueuesOk(entries[d := Some(e)], systems, dirty + {d})
    ensures entries[d].value.worker.Some? && e.worker.Some? && d !in dirty ==>
      QueuesOk(entries[d := Some(e)], systems, dirty)
  {
  }

  lemma QueuedEntry(entries: Entries, systems: Systems, dirty: set<DrvId>, d: DrvId)
    requires QueuesOk(entries, systems, dirty) && Unplaced(entries, d) && d !in dirty
    ensures entries[d].value.followers != [] && entries[d].value.system != ""
    ensures InQueue(systems, entries[d].value.system, d)
  {
  }

  /** Only a placed entry, known from a worker's Hello, lacks a system. */
  lemma PlacedWithoutSystem(entries: Entries, systems: Systems, dirty: set<DrvId>, d: DrvId)
    requires QueuesOk(entries, systems, dirty) && Live(entries, d) && d !in dirty && entries[d].value.system == ""
    ensures entries[d].value.worker.Some?
  {
  }

  lemma QueuesAdd(entries: Entries, systems: Systems, dirty: set<DrvId>, d: DrvId, e: Entry)
    requires QueuesOk(entries, systems, dirty)
    requires 0 <= d < |entries| && entries[d].None?
    ensures QueuesOk(entries[d := Some(e)], systems, dirty + {d})
  {
  }

  lemma QueuesGrow(entries: Entries, systems: Systems, dirty: set<DrvId>, e: Entry)
    requires QueuesOk(entries, systems, dirty)
    ensures QueuesOk(entries + [Some(e)], systems, dirty + {|entries|})
  {
  }

  lemma QueuesEnqueue(entries: Entries, systems: Systems, dirty: set<DrvId>, d: DrvId)
    requires QueuesOk(entries, systems, dirty)
    requires Unplaced(entries, d) && entries[d].value.followers != [] && entries[d].value.system != ""
    ensures QueuesOk(entries, SetKey(systems, entries[d].value.system, d, Prio(entries[d].value)), dirty - {d})
  {
  }

  lemma QueuesErase(entries: Entries, systems: Systems, dirty: set<DrvId>, d: DrvId)
    requires QueuesOk(entries, systems, dirty)
    requires Live(entries, d)
    ensures QueuesOk(entries, EraseKey(systems, entries[d].value.system, d), dirty + {d})
    ensures entries[d].value.worker.Some? ==>
      QueuesOk(entries, EraseKey(systems, entries[d].value.system, d), dirty - {d})
    ensures forall n :: !InQueue(EraseKey(systems, entries[d].value.system, d), n, d)
  {
  }

  /** Placing an entry that was taken out of its queue. */
  lemma QueuesPlace(entries: Entries, systems: Systems, dirty: set<DrvId>, d: DrvId, e: Entry)
    requires QueuesOk(entries, systems, dirty + {d}) && d !in dirty
    requires Live(entries, d) && e.worker.Some? && (forall n :: !InQueue(systems, n, d))
    ensures QueuesOk(entries[d := Some(e)], systems, dirty)
  {
  }

  lemma QueuesRetire(entries: Entries, systems: Systems, dirty: set<DrvId>, d: DrvId)
    requires QueuesOk(entries, systems, dirty)
    requires Live(entries, d)
    ensures QueuesOk(entries[d := None], EraseKey(systems, entries[d].value.system, d), dirty - {d})
    ensures entries[d].value.system !in systems ==> QueuesOk(entries[d := None], systems, dirty - {d})
  {
  }

  lemma QueuesReflag(entries: Entries, systems: Systems, d: DrvId, e: Entry)
    requires QueuesOk(entries, systems, {}) && Live(entries, d)
    requires e == entries[d].value.(unplaceable := e.unplaceable)
    ensures QueuesOk(entries[d := Some(e)], systems, {})
  {
  }

  /** Placeability depends on the system and the features alone, so the answer can be shared. */
  lemma PlaceableByKey(workers: seq<Worker>, e: Entry)
    ensures forall f: Entry :: f.system == e.system && f.features == e.features ==>
      Placeable(workers, f) == Placeable(workers, e)
  {
  }

  lemma QueuesSame(entries: Entries, a: Systems, b: Systems, dirty: set<DrvId>)
    requires QueuesOk(entries, a, dirty) && SameQueues(a, b)
    ensures QueuesOk(entries, b, dirty)
  {
  }

  // -------------------------------------------------------------- running

  lemma RunningKeep(entries: Entries, workers: seq<Worker>, d: DrvId, e: Entry)
    requires RunningOk(entries, workers)
    requires Live(entries, d) && e.worker == entries[d].value.worker
    ensures RunningOk(entries[d := Some(e)], workers)
  {
  }

  lemma RunningAdd(entries: Entries, workers: seq<Worker>, d: DrvId, e: Entry)
    requires RunningOk(entries, workers)
    requires 0 <= d < |entries| && entries[d].None? && e.worker.None?
    ensures RunningOk(entries[d := Some(e)], workers)
  {
  }

  lemma RunningGrow(entries: Entries, workers: seq<Worker>, e: Entry)
    requires RunningOk(entries, workers)
    requires e.worker.None?
    ensures RunningOk(entries + [Some(e)], workers)
  {
  }

  lemma RunningRetire(entries: Entries, workers: seq<Worker>, d: DrvId)
    requires RunningOk(entries, workers)
    requires Unplaced(entries, d)
    ensures RunningOk(entries[d := None], workers)
  {
  }

  lemma RunningPlace(entries: Entries, workers: seq<Worker>, d: DrvId, e: Entry, w: WorkerId)
    requires RunningOk(entries, workers)
    requires Unplaced(entries, d)
    requires 0 <= w < |workers| && workers[w].up && e.worker == Some(w)
    ensures RunningOk(entries[d := Some(e)], workers[w := workers[w].(running := workers[w].running + [d])])
  {
    NoDupAppend(workers[w].running, d);
  }

  lemma RunningDrop(entries: Entries, workers: seq<Worker>, d: DrvId, e: Entry, w: WorkerId)
    requires RunningOk(entries, workers)
    requires 0 <= w < |workers| && PlacedOn(entries, d, w) && e.worker.None?
    ensures RunningOk(entries[d := Some(e)], workers[w := workers[w].(running := Without(workers[w].running, d))])
  {
  }

  /** The entry leaves whatever worker it is on. */
  lemma RunningLeave(entries: Entries, workers: seq<Worker>, d: DrvId, e: Entry)
    requires RunningOk(entries, workers)
    requires Live(entries, d) && entries[d].value.worker.Some? && e.worker.None?
    ensures var v := entries[d].value.worker.value;
      && 0 <= v < |workers|
      && RunningOk(entries[d := Some(e)], workers[v := workers[v].(running := Without(workers[v].running, d))])
  {
    RunningDrop(entries, workers, d, e, entries[d].value.worker.value);
  }

  lemma RunningDone(entries: Entries, workers: seq<Worker>, d: DrvId, w: WorkerId)
    requires RunningOk(entries, workers)
    requires 0 <= w < |workers| && PlacedOn(entries, d, w)
    ensures RunningOk(entries[d := None], workers[w := workers[w].(running := Without(workers[w].running, d))])
  {
  }

  lemma RunningWorker(entries: Entries, workers: seq<Worker>, w: WorkerId, wkr: Worker)
    requires RunningOk(entries, workers)
    requires 0 <= w < |workers| && wkr.running == workers[w].running
    requires wkr.running != [] ==> wkr.up
    requires 0 <= wkr.maxJobs <= MAX_SLOTS
    ensures RunningOk(entries, workers[w := wkr])
  {
  }

  lemma WorkerFacts(entries: Entries, workers: seq<Worker>, w: WorkerId)
    requires RunningOk(entries, workers) && 0 <= w < |workers|
    ensures NoDup(workers[w].running) && 0 <= workers[w].maxJobs <= MAX_SLOTS
    ensures workers[w].running != [] ==> workers[w].up
    ensures forall d :: d in workers[w].running <==> PlacedOn(entries, d, w)
  {
  }

  lemma RunningNewWorker(entries: Entries, workers: seq<Worker>, wkr: Worker)
    requires RunningOk(entries, workers)
    requires wkr.running == [] && 0 <= wkr.maxJobs <= MAX_SLOTS
    ensures RunningOk(entries, workers + [wkr])
  {
  }

  // ----------------------------------------------------------------- free

  lemma FreeSame(workers: seq<Worker>, a: Systems, b: Systems, but: set<WorkerId>)
    requires FreeOk(workers, a, but) && SameFree(a, b)
    ensures FreeOk(workers, b, but)
  {
  }

  /** Dropping the state of a system nobody offers. */
  lemma FreeForget(workers: seq<Worker>, systems: Systems, but: set<WorkerId>, name: string)
    requires FreeOk(workers, systems, but)
    requires forall w :: 0 <= w < |workers| ==> name !in workers[w].systems
    requires QueueOf(systems, name) == map[]
    ensures FreeOk(workers, Forget(systems, name), but)
  {
  }

  lemma FreeWorker(workers: seq<Worker>, systems: Systems, but: set<WorkerId>, w: WorkerId, wkr: Worker)
    requires FreeOk(workers, systems, but)
    requires 0 <= w < |workers| && wkr.systems == workers[w].systems
    ensures FreeOk(workers[w := wkr], systems, but + {w})
    ensures FreeSlots(wkr) == FreeSlots(workers[w]) ==> FreeOk(workers[w := wkr], systems, but)
  {
  }

  lemma SlotsOfDown(a: Worker, b: Worker)
    requires !a.up && !b.up
    ensures FreeSlots(a) == FreeSlots(b) == 0
  {
  }

  lemma FreeNewWorker(workers: seq<Worker>, systems: Systems, wkr: Worker)
    requires FreeOk(workers, systems, {}) && wkr.systems == []
    ensures FreeOk(workers + [wkr], systems, {})
  {
  }

  /** One step of showing a worker's new count in the systems it offers. */
  lemma FreeSetOne(workers: seq<Worker>, systems: Systems, but: set<WorkerId>, w: WorkerId, name: string, val: int)
    requires FreeOk(workers, systems, but + {w})
    requires 0 <= w < |workers| && name in workers[w].systems
    ensures Tracked(systems, name, w)
    ensures FreeOk(workers, SetFree(systems, name, w, val), but + {w})
  {
  }

  lemma FreeAllSet(workers: seq<Worker>, systems: Systems, but: set<WorkerId>, w: WorkerId)
    requires FreeOk(workers, systems, but + {w})
    requires 0 <= w < |workers| && w !in but
    requires forall i :: 0 <= i < |workers[w].systems| ==>
      Tracked(systems, workers[w].systems[i], w) && systems[workers[w].systems[i]].free[w] == FreeSlots(workers[w])
    ensures FreeOk(workers, systems, but)
  {
  }

  // -------------------------------------------------------------- follows

  lemma FollowsCancel(entries: Entries, follows: map<ClientId, seq<DrvId>>, d: DrvId, c: ClientId)
    requires FollowsOk(entries, follows) && Live(entries, d)
    ensures var e := entries[d].value;
      FollowsOk(entries[d := Some(e.(followers := Without(e.followers, c)))], follows)
  {
  }

  lemma FollowsAdd(entries: Entries, follows: map<ClientId, seq<DrvId>>, d: DrvId, e: Entry, c: ClientId)
    requires FollowsOk(entries, follows) && Live(entries, d) && c !in entries[d].value.followers
    requires e.followers == entries[d].value.followers + [c] && e.system != ""
    ensures FollowsOk(entries[d := Some(e)], follows[c := (if c in follows then follows[c] else []) + [d]])
  {
  }

  lemma FollowsNew(entries: Entries, follows: map<ClientId, seq<DrvId>>, d: DrvId, e: Entry)
    requires FollowsOk(entries, follows) && e.followers == []
    ensures 0 <= d < |entries| ==> FollowsOk(entries[d := Some(e)], follows)
    ensures FollowsOk(entries + [Some(e)], follows)
  {
  }

  /** A client nobody lists as follower may be forgotten. */
  lemma FollowsForget(entries: Entries, follows: map<ClientId, seq<DrvId>>, c: ClientId)
    requires FollowsOk(entries, follows)
    requires forall d :: Live(entries, d) ==> c !in entries[d].value.followers
    ensures FollowsOk(entries, follows - {c})
  {
  }

  lemma FollowedSystem(entries: Entries, follows: map<ClientId, seq<DrvId>>, d: DrvId)
    requires FollowsOk(entries, follows) && Live(entries, d)
    ensures entries[d].value.followers != [] ==> entries[d].value.system != ""
  {
  }

  lemma FollowsKeep(entries: Entries, follows: map<ClientId, seq<DrvId>>, d: DrvId, e: Entry)
    requires FollowsOk(entries, follows)
    requires Live(entries, d) && e.followers == entries[d].value.followers
    requires e.system != "" || e.system == entries[d].value.system
    ensures FollowsOk(entries[d := Some(e)], follows)
  {
  }

  lemma FollowsRetire(entries: Entries, follows: map<ClientId, seq<DrvId>>, d: DrvId)
    requires FollowsOk(entries, follows) && Live(entries, d)
    ensures FollowsOk(entries[d := None], follows)
  {
  }

  // -------------------------------------------------------------- workers

  lemma AddrsUpdate(workers: seq<Worker>, workerIds: map<string, WorkerId>, w: WorkerId, wkr: Worker)
    requires AddrsOk(workers, workerIds)
    requires 0 <= w < |workers| && wkr.addr == workers[w].addr
    ensures AddrsOk(workers[w := wkr], workerIds)
  {
  }

  lemma AddrsGrow(workers: seq<Worker>, workerIds: map<string, WorkerId>, wkr: Worker)
    requires AddrsOk(workers, workerIds) && wkr.addr !in workerIds
    ensures AddrsOk(workers + [wkr], workerIds[wkr.addr := |workers|])
  {
  }

  lemma CountUpGrow(workers: seq<Worker>, wkr: Worker)
    ensures CountUp(workers + [wkr]) == CountUp(workers) + (if wkr.up then 1 else 0)
  {
  }

  lemma {:induction false} CountUpUpdate(workers: seq<Worker>, w: WorkerId, wkr: Worker)
    requires 0 <= w < |workers|
    ensures CountUp(workers[w := wkr]) ==
      CountUp(workers) + (if wkr.up then 1 else 0) - (if workers[w].up then 1 else 0)
  {
    var n := |workers| - 1;
    if w == n {
      assert workers[w := wkr][..n] == workers[..n];
    } else {
      assert workers[w := wkr][..n] == workers[..n][w := wkr];
      CountUpUpdate(workers[..n], w, wkr);
    }
  }

  // ---------------------------------------------------------------- hello

  lemma TableOfLost(old_: Entries, oldIds: map<PathKey, DrvId>, oldFree: seq<DrvId>,
                    entries: Entries, drvIds: map<PathKey, DrvId>, freeIds: seq<DrvId>, w: WorkerId)
    requires IdsOk(old_, oldIds, oldFree) && IdsOk(entries, drvIds, freeIds)
    requires |entries| == |old_|
    requires forall d :: 0 <= d < |entries| ==> entries[d] == Lost(old_[d], w)
    ensures Table(entries, drvIds) == LostTable(Table(old_, oldIds), w)
  {
    hide IdsOk, Table, LostTable, Lost;
    var t, u := Table(entries, drvIds), LostTable(Table(old_, oldIds), w);
    forall p
      ensures Lookup(t, p) == Lookup(u, p)
    {
      LostAt(old_, oldIds, oldFree, entries, drvIds, freeIds, w, p);
    }
    forall p
      ensures p in t <==> p in u
      ensures p in t ==> t[p] == u[p]
    {
      assert Lookup(t, p) == Lookup(u, p);
    }
  }

  /** The entry of a path, by its id. */
  lemma LookupById(entries: Entries, drvIds: map<PathKey, DrvId>, freeIds: seq<DrvId>, p: PathKey, d: DrvId)
    requires IdsOk(entries, drvIds, freeIds) && 0 <= d < |entries|
    ensures p in drvIds && drvIds[p] == d ==> Lookup(Table(entries, drvIds), p) == entries[d]
    ensures p !in drvIds ==> Lookup(Table(entries, drvIds), p) == None
    ensures entries[d].Some? && entries[d].value.path == p ==> p in drvIds && drvIds[p] == d
    ensures p in drvIds ==> 0 <= drvIds[p] < |entries| && entries[drvIds[p]].Some? && entries[drvIds[p]].value.path == p
  {
  }

  lemma NoIds(entries: Entries, drvIds: map<PathKey, DrvId>, freeIds: seq<DrvId>, p: PathKey)
    requires IdsOk(entries, drvIds, freeIds)
    ensures p !in drvIds ==> Lookup(Table(entries, drvIds), p) == None
    ensures p in drvIds ==> 0 <= drvIds[p] < |entries|
  {
  }

  lemma LostAt(old_: Entries, oldIds: map<PathKey, DrvId>, oldFree: seq<DrvId>,
               entries: Entries, drvIds: map<PathKey, DrvId>, freeIds: seq<DrvId>, w: WorkerId, p: PathKey)
    requires IdsOk(old_, oldIds, oldFree) && IdsOk(entries, drvIds, freeIds)
    requires |entries| == |old_|
    requires forall d :: 0 <= d < |entries| ==> entries[d] == Lost(old_[d], w)
    ensures Lookup(Table(entries, drvIds), p) == Lookup(LostTable(Table(old_, oldIds), w), p)
  {
    hide IdsOk, Table;
    NoIds(old_, oldIds, oldFree, p);
    NoIds(entries, drvIds, freeIds, p);
    if p in oldIds {
      var d := oldIds[p];
      LookupById(old_, oldIds, oldFree, p, d);
      LookupById(entries, drvIds, freeIds, p, d);
      assert entries[d] == Lost(old_[d], w);
      if p in drvIds {
        LookupById(old_, oldIds, oldFree, p, drvIds[p]);
        LookupById(entries, drvIds, freeIds, p, drvIds[p]);
      }
    } else if p in drvIds {
      var d := drvIds[p];
      LookupById(entries, drvIds, freeIds, p, d);
      LookupById(old_, oldIds, oldFree, p, d);
      assert entries[d] == Lost(old_[d], w);
    }
  }

  /** A Hello reports exactly what the worker then runs: each reported path is the worker's,
      under the id last reported, with its followers kept; every other path is as before. */
  lemma {:induction false} AdoptAllAt(t: map<PathKey, Entry>, w: WorkerId, running: seq<(PathKey, nat)>, p: PathKey)
    ensures var r := AdoptAll(t, w, running);
      && (!Reported(running, p) ==> Lookup(r, p) == Lookup(t, p))
      && (Reported(running, p) ==>
          && p in r && r[p].worker == Some(w) && r[p].assignId == LastId(running, p)
          && r[p] == Adopted(Lookup(t, p), p, w, LastId(running, p)))
  {
    if running != [] {
      var n := |running| - 1;
      AdoptAllAt(t, w, running[..n], p);
      assert Reported(running, p) <==> Reported(running[..n], p) || running[n].0 == p by {
        if Reported(running, p) {
          var i :| 0 <= i < |running| && running[i].0 == p;
          assert i < n ==> running[..n][i].0 == p;
        }
        if Reported(running[..n], p) {
          var i :| 0 <= i < n && running[..n][i].0 == p;
          assert running[i].0 == p;
        }
      }
    }
  }

  ghost function LastId(running: seq<(PathKey, nat)>, p: PathKey): nat {
    if running == [] then 0
    else if running[|running| - 1].0 == p then running[|running| - 1].1
    else LastId(running[..|running| - 1], p)
  }

  /** While worker w is not running anything: its index entries are zero everywhere. */
  ghost predicate FreeIdle(workers: seq<Worker>, systems: Systems, w: WorkerId) {
    && (forall v, n :: 0 <= v < |workers| && v != w && n in workers[v].systems ==>
        Tracked(systems, n, v) && systems[n].free[v] == FreeSlots(workers[v]))
    && (forall n, v :: Tracked(systems, n, v) ==>
        && 0 <= v < |workers|
        && (v == w || n !in workers[v].systems ==> systems[n].free[v] == 0))
  }

  lemma FreeIdleStart(workers: seq<Worker>, systems: Systems, w: WorkerId)
    requires FreeOk(workers, systems, {}) && 0 <= w < |workers| && !workers[w].TakesWork()
    ensures FreeIdle(workers, systems, w)
  {
  }

  lemma FreeIdlePush(workers: seq<Worker>, systems: Systems, w: WorkerId, name: string)
    requires FreeIdle(workers, systems, w) && 0 <= w < |workers|
    ensures FreeIdle(workers, SetFree(systems, name, w, 0), w)
  {
  }

  lemma FreeIdleEnd(workers: seq<Worker>, systems: Systems, w: WorkerId, wkr: Worker)
    requires FreeIdle(workers, systems, w) && 0 <= w < |workers|
    requires forall i :: 0 <= i < |wkr.systems| ==> Tracked(systems, wkr.systems[i], w)
    ensures FreeOk(workers[w := wkr], systems, {w})
  {
  }

  /** Which adoption tells followers about a drv: one that was not already on the worker. */
  function Supersedes(was: Option<Entry>, d: DrvId, w: WorkerId): Option<Superseded> {
    if was.None? || was.value.worker == Some(w) then None
    else if was.value.worker.Some? || was.value.followers != [] then Some(Superseded(d, was.value.worker))
    else None
  }

  /** A worker that is not up runs nothing, so losing it changes nothing. */
  lemma LostNothing(entries: Entries, drvIds: map<PathKey, DrvId>, freeIds: seq<DrvId>, workers: seq<Worker>,
                    w: WorkerId)
    requires IdsOk(entries, drvIds, freeIds) && RunningOk(entries, workers)
    requires 0 <= w < |workers| && !workers[w].up
    ensures LostTable(Table(entries, drvIds), w) == Table(entries, drvIds)
  {
  }

  lemma OnePath(entries: Entries, drvIds: map<PathKey, DrvId>, freeIds: seq<DrvId>, d: DrvId)
    requires IdsOk(entries, drvIds, freeIds) && Live(entries, d)
    ensures forall x :: Live(entries, x) && entries[x].value.path == entries[d].value.path ==> x == d
  {
  }

  /** One more reported path: who has to be told so far. */
  ghost predicate SupersededOk(entries: Entries, t: map<PathKey, Entry>, w: WorkerId, running: seq<(PathKey, nat)>,
                               sup: seq<Superseded>) {
    && NoDup(sup)
    && (forall x :: x in sup <==>
        && Live(entries, x.drv)
        && Reported(running, entries[x.drv].value.path)
        && Supersedes(Lookup(t, entries[x.drv].value.path), x.drv, w) == Some(x))
  }

  lemma NothingReported(entries: Entries, t: map<PathKey, Entry>, w: WorkerId)
    ensures SupersededOk(entries, t, w, [], []) && AdoptAll(t, w, []) == t
  {
  }

  lemma AdoptNext(t: map<PathKey, Entry>, w: WorkerId, running: seq<(PathKey, nat)>, n: nat)
    requires n < |running|
    ensures var p, before := running[n].0, AdoptAll(t, w, running[..n]);
      AdoptAll(t, w, running[..n + 1]) == before[p := Adopted(Lookup(before, p), p, w, running[n].1)]
  {
    assert running[..n + 1][..n] == running[..n];
  }

  lemma SupersededStep(before: Entries, entries: Entries, t: map<PathKey, Entry>, w: WorkerId,
                       running: seq<(PathKey, nat)>, sup: seq<Superseded>, n: nat, d: DrvId)
    requires n < |running| && SupersededOk(before, t, w, running[..n], sup)
    requires forall x :: Live(before, x) ==> Live(entries, x) && entries[x].value.path == before[x].value.path
    requires forall x :: Live(entries, x) && !Live(before, x) ==> x == d
    requires Live(entries, d) && entries[d].value.path == running[n].0
    requires forall x :: Live(entries, x) && entries[x].value.path == running[n].0 ==> x == d
    requires !Live(before, d) ==> running[n].0 !in t
    ensures var s := Supersedes(if Reported(running[..n], running[n].0) then None else Lookup(t, running[n].0), d, w);
      SupersededOk(entries, t, w, running[..n + 1], if s.Some? then sup + [s.value] else sup)
  {
  }

  lemma WithoutHead<T(!new)>(s: seq<T>)
    requires s != [] && NoDup(s)
    ensures Without(s, s[0]) == s[1..]
  {
  }

  // ----------------------------------------------------------- what agreement means

  /** A live entry is followed or placed. It is in one place: under its priority in the queue of
      its own system, or once in the running list of one worker, which is up. */
  lemma EntryInOnePlace(entries: Entries, systems: Systems, workers: seq<Worker>, d: DrvId)
    requires QueuesOk(entries, systems, {}) && RunningOk(entries, workers) && Live(entries, d)
    ensures var e := entries[d].value;
      && (e.followers != [] || e.worker.Some?)
      && (forall n :: InQueue(systems, n, d) <==> e.worker.None? && n == e.system)
      && (e.worker.None? ==> QueueOf(systems, e.system)[d] == Prio(e))
      && (forall w :: 0 <= w < |workers| ==> multiset(workers[w].running)[d] == if e.worker == Some(w) then 1 else 0)
      && (e.worker.Some? ==> 0 <= e.worker.value < |workers| && workers[e.worker.value].up)
  {
    var e := entries[d].value;
    forall n
      ensures InQueue(systems, n, d) <==> e.worker.None? && n == e.system
    {
      assert Unplaced(entries, d) <==> e.worker.None?;
    }
    forall w | 0 <= w < |workers|
      ensures multiset(workers[w].running)[d] == if e.worker == Some(w) then 1 else 0
    {
      CountOf(workers[w].running, d);
      assert d in workers[w].running <==> e.worker == Some(w);
    }
  }

  lemma {:induction false} CountOf(s: seq<DrvId>, d: DrvId)
    requires NoDup(s)
    ensures multiset(s)[d] == if d in s then 1 else 0
  {
    if s != [] {
      var n := |s| - 1;
      CountOf(s[..n], d);
      assert s == s[..n] + [s[n]];
    }
  }

  /** An id is free or names exactly one live entry, never both. */
  lemma IdsPartition(entries: Entries, drvIds: map<PathKey, DrvId>, freeIds: seq<DrvId>, d: DrvId)
    requires IdsOk(entries, drvIds, freeIds) && 0 <= d < |entries|
    ensures multiset(freeIds)[d] == if Live(entries, d) then 0 else 1
    ensures Live(entries, d) <==> exists p :: p in drvIds && drvIds[p] == d
    ensures forall p, q :: p in drvIds && q in drvIds && drvIds[p] == drvIds[q] ==> p == q
  {
    CountOf(freeIds, d);
    if Live(entries, d) {
      assert drvIds[entries[d].value.path] == d;
    }
  }

  /** Another Want leaves an unplaced entry in the queue of its own system and no other exactly if
      the entry has a system or the Want names none. */
  lemma QueuedOnce(entries: Entries, systems: Systems, d: DrvId, client: ClientId, info: WantInfo, nowMs: real)
    requires Unplaced(entries, d) && forall n :: InQueue(systems, n, d) <==> n == entries[d].value.system
    ensures var e := Wanted(entries[d], client, info, nowMs);
      var after := SetKey(systems, e.system, d, Prio(e));
      (forall n :: InQueue(after, n, d) <==> n == e.system) <==> (entries[d].value.system != "" || info.system == "")
  {
    hide Prio;
    var e := Wanted(entries[d], client, info, nowMs);
    var after := SetKey(systems, e.system, d, Prio(e));
    assert InQueue(systems, entries[d].value.system, d);
    assert forall n :: n != e.system ==> (InQueue(after, n, d) <==> InQueue(systems, n, d));
    if entries[d].value.system == "" && info.system != "" {
      assert InQueue(after, "", d);
    }
  }

  /** A first Want without a name makes an entry that another Want may queue a second time. */
  lemma NamelessWant(entries: Entries, systems: Systems, d: DrvId, client: ClientId, info: WantInfo, nowMs: real)
    requires QueuesOk(entries, systems, {}) && 0 <= d < |entries| && entries[d].None? && info.system == ""
    ensures var e := Wanted(None, client, info, nowMs);
      var after := SetKey(systems, "", d, Prio(e));
      && Unplaced(entries[d := Some(e)], d) && e.system == ""
      && forall n :: InQueue(after, n, d) <==> n == ""
  {
    hide Prio;
    var e := Wanted(None, client, info, nowMs);
    var after := SetKey(systems, "", d, Prio(e));
    assert forall n :: n != "" ==> (InQueue(after, n, d) <==> InQueue(systems, n, d));
  }
}
