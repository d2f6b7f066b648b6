/**
 * The data the placement core keeps (src/daemon/scheduler.hh) and the
 * agreement between its tables, as predicates on values.
 */
module SchedState {
  import opened Lists
  import Buckets

  type ClientId = int
  type WorkerId = int
  type DrvId = int
  type PathKey = string   // a store path reduced to its hash part
  type Key = real         // queue priority, least first

  const MAX_SLOTS: int := Buckets.MAX_SLOTS
  const AGE_WEIGHT: real := 4.0
  const FANIN_WEIGHT: real := 30000.0
  const LOC_LAMBDA: real := 256000000.0

  datatype Entry = Entry(
    path: PathKey,
    inputs: seq<PathKey>,
    system: string,
    features: seq<string>,
    followers: seq<ClientId>,
    worker: Option<WorkerId>,
    assignId: nat,
    enqMs: real,
    cpHint: real,
    unplaceable: bool,
    avoid: Option<WorkerId>)

  datatype Worker = Worker(
    addr: string,
    systems: seq<string>,
    features: seq<string>,
    maxJobs: int,
    up: bool,
    draining: bool,
    running: seq<DrvId>)
  {
    predicate TakesWork() {
      up && !draining && maxJobs > 0
    }
  }

  /** One system's queue and free-slot index, as the maps IndexedHeap and FreeIndex implement. */
  datatype SystemState = SystemState(queue: map<DrvId, Key>, free: map<WorkerId, int>)

  type Entries = seq<Option<Entry>>
  type Systems = map<string, SystemState>

  // ---------------------------------------------------------------- reading

  predicate Live(entries: Entries, d: DrvId) {
    0 <= d < |entries| && entries[d].Some?
  }

  predicate Unplaced(entries: Entries, d: DrvId) {
    Live(entries, d) && entries[d].value.worker.None?
  }

  predicate PlacedOn(entries: Entries, d: DrvId, w: WorkerId) {
    Live(entries, d) && entries[d].value.worker == Some(w)
  }

  function Prio(e: Entry): Key {
    var extra := if e.followers == [] then 0.0 else (|e.followers| - 1) as real;
    -(e.cpHint + FANIN_WEIGHT * extra - AGE_WEIGHT * e.enqMs)
  }

  predicate Offers(w: Worker, e: Entry) {
    e.system in w.systems && forall f :: f in e.features ==> f in w.features
  }

  /** Slots the free index must show for a worker in each system it offers. */
  function FreeSlots(w: Worker): int {
    if w.TakesWork() then w.maxJobs - (if |w.running| < MAX_SLOTS then |w.running| else MAX_SLOTS) else 0
  }

  /** A worker is taking work and serves the entry's system and features, busy or not. */
  predicate Placeable(workers: seq<Worker>, e: Entry) {
    exists w :: 0 <= w < |workers| && workers[w].TakesWork() && Offers(workers[w], e)
  }

  function Sys(systems: Systems, name: string): SystemState {
    if name in systems then systems[name] else SystemState(map[], map[])
  }

  function QueueOf(systems: Systems, name: string): map<DrvId, Key> {
    Sys(systems, name).queue
  }

  predicate InQueue(systems: Systems, name: string, d: DrvId) {
    d in QueueOf(systems, name)
  }

  /** The live entries by path: what the table means, whatever ids it uses. */
  ghost function Table(entries: Entries, drvIds: map<PathKey, DrvId>): map<PathKey, Entry> {
    map p | p in drvIds && Live(entries, drvIds[p]) :: entries[drvIds[p]].value
  }

  // ----------------------------------------------------------- agreement

  /** Live ids and free ids partition the table; drvIds names exactly the live ones. */
  ghost predicate IdsOk(entries: Entries, drvIds: map<PathKey, DrvId>, freeIds: seq<DrvId>) {
    && (forall p :: p in drvIds ==> Live(entries, drvIds[p]) && entries[drvIds[p]].value.path == p)
    && (forall d :: Live(entries, d) ==> entries[d].value.path in drvIds && drvIds[entries[d].value.path] == d)
    && (forall d :: d in freeIds ==> 0 <= d < |entries| && entries[d].None?)
    && (forall d :: 0 <= d < |entries| && entries[d].None? ==> d in freeIds)
    && NoDup(freeIds)
  }

  /** A queue holds `d` iff `d` is an unplaced entry of that system, under its current
      priority. Entries in `dirty` are being changed: their queue is not up to date. */
  ghost predicate QueuesOk(entries: Entries, systems: Systems, dirty: set<DrvId>) {
    && (forall n, d {:trigger InQueue(systems, n, d)} :: InQueue(systems, n, d) ==>
        && Live(entries, d)
        && entries[d].value.system == n
        && (d !in dirty ==>
            entries[d].value.worker.None? && QueueOf(systems, n)[d] == Prio(entries[d].value)))
    && (forall d :: Unplaced(entries, d) && d !in dirty ==>
        && entries[d].value.followers != []
        && entries[d].value.system != ""
        && InQueue(systems, entries[d].value.system, d))
  }

  /** Worker w's running list names each entry placed on w once, and only those; only up workers run. */
  ghost predicate RunningOk(entries: Entries, workers: seq<Worker>) {
    && (forall w, d :: 0 <= w < |workers| && d in workers[w].running ==> PlacedOn(entries, d, w))
    && (forall d :: Live(entries, d) && entries[d].value.worker.Some? ==>
        && 0 <= entries[d].value.worker.value < |workers|
        && d in workers[entries[d].value.worker.value].running)
    && (forall w :: 0 <= w < |workers| ==>
        && NoDup(workers[w].running)
        && (workers[w].running != [] ==> workers[w].up)
        && 0 <= workers[w].maxJobs <= MAX_SLOTS)
  }

  predicate Tracked(systems: Systems, name: string, w: WorkerId) {
    name in systems && w in systems[name].free
  }

  ghost predicate HasFreeSlot(systems: Systems, n: string) {
    exists w :: Tracked(systems, n, w) && systems[n].free[w] > 0
  }

  /** Each free index shows FreeSlots for the workers offering its system and zero for the
      others. Workers in `but` may still show old values in the systems they offer. */
  ghost predicate FreeOk(workers: seq<Worker>, systems: Systems, but: set<WorkerId>) {
    && (forall w, n :: 0 <= w < |workers| && n in workers[w].systems ==>
        && Tracked(systems, n, w)
        && (w !in but ==> systems[n].free[w] == FreeSlots(workers[w])))
    && (forall n, w :: Tracked(systems, n, w) ==>
        && 0 <= w < |workers|
        && (n !in workers[w].systems ==> systems[n].free[w] == 0))
  }

  /** Every follower's drv is in that client's list; the list may hold stale ids as well. */
  ghost predicate FollowsOk(entries: Entries, follows: map<ClientId, seq<DrvId>>) {
    forall d :: Live(entries, d) ==>
      && NoDup(entries[d].value.followers)
      && (entries[d].value.followers != [] ==> entries[d].value.system != "")
      && (forall c :: c in entries[d].value.followers ==> c in follows && d in follows[c])
  }

  ghost predicate AddrsOk(workers: seq<Worker>, workerIds: map<string, WorkerId>) {
    && (forall a :: a in workerIds ==> 0 <= workerIds[a] < |workers| && workers[workerIds[a]].addr == a)
    && (forall w :: 0 <= w < |workers| ==> workers[w].addr in workerIds && workerIds[workers[w].addr] == w)
  }

  /** The flag of each queued entry, which is what its clients heard last, is right; entries in
      `untold` may still lack it. */
  ghost predicate FlagsOk(entries: Entries, workers: seq<Worker>, untold: set<DrvId>) {
    forall d :: Unplaced(entries, d) ==>
      if entries[d].value.unplaceable || d !in untold
      then entries[d].value.unplaceable == !Placeable(workers, entries[d].value)
      else true
  }

  predicate SameFlag(e: Entry, f: Entry) {
    e.unplaceable == f.unplaceable && e.system == f.system && e.features == f.features
  }

  function CountUp(workers: seq<Worker>): nat {
    if workers == [] then 0
    else CountUp(workers[..|workers| - 1]) + (if workers[|workers| - 1].up then 1 else 0)
  }

  // ------------------------------------------------------------- updates

  /** Same free-slot values everywhere. */
  ghost predicate SameFree(a: Systems, b: Systems) {
    forall n, w :: Tracked(a, n, w) == Tracked(b, n, w)
                   && (Tracked(a, n, w) ==> a[n].free[w] == b[n].free[w])
  }

  ghost predicate SameQueues(a: Systems, b: Systems) {
    forall n, d {:trigger InQueue(a, n, d)} {:trigger InQueue(b, n, d)} ::
      InQueue(a, n, d) == InQueue(b, n, d) && (InQueue(a, n, d) ==> QueueOf(a, n)[d] == QueueOf(b, n)[d])
  }

  /** Same queues, but for one drv in one system. */
  ghost predicate KeysBut(a: Systems, b: Systems, name: string, d: DrvId) {
    forall n, x {:trigger InQueue(a, n, x)} {:trigger InQueue(b, n, x)} :: !(n == name && x == d) ==>
      InQueue(a, n, x) == InQueue(b, n, x) && (InQueue(a, n, x) ==> QueueOf(a, n)[x] == QueueOf(b, n)[x])
  }

  function SetKey(systems: Systems, name: string, d: DrvId, key: Key): (r: Systems)
    ensures SameFree(systems, r)
    ensures InQueue(r, name, d) && QueueOf(r, name)[d] == key
    ensures KeysBut(systems, r, name, d)
  {
    var s := Sys(systems, name);
    systems[name := s.(queue := s.queue[d := key])]
  }

  function EraseKey(systems: Systems, name: string, d: DrvId): (r: Systems)
    ensures SameFree(systems, r)
    ensures !InQueue(r, name, d)
    ensures KeysBut(systems, r, name, d)
  {
    var s := Sys(systems, name);
    systems[name := s.(queue := s.queue - {d})]
  }

  function SetFree(systems: Systems, name: string, w: WorkerId, val: int): (r: Systems)
    ensures SameQueues(systems, r)
    ensures Tracked(r, name, w) && r[name].free[w] == val
    ensures forall n, v :: Tracked(r, n, v) && !(n == name && v == w) ==>
      Tracked(systems, n, v) && r[n].free[v] == systems[n].free[v]
    ensures forall n, v :: Tracked(systems, n, v) ==> Tracked(r, n, v)
  {
    var s := Sys(systems, name);
    systems[name := s.(free := s.free[w := val])]
  }

  /** Drop the state of a system whose queue is empty. */
  function Forget(systems: Systems, name: string): (r: Systems)
    requires QueueOf(systems, name) == map[]
    ensures SameQueues(systems, r)
    ensures forall n, w :: Tracked(r, n, w) ==> Tracked(systems, n, w) && r[n].free[w] == systems[n].free[w]
    ensures forall n, w :: Tracked(systems, n, w) && n != name ==> Tracked(r, n, w)
  {
    systems - {name}
  }

  // --------------------------------------------------- what events do to an entry

  datatype WantInfo = WantInfo(path: PathKey, inputs: seq<PathKey>, system: string, features: seq<string>, cpHint: real)

  function NewEntry(path: PathKey): Entry {
    Entry(path, [], "", [], [], None, 0, 0.0, 0.0, false, None)
  }

  /** The entry after a client wants it; `was` is None if the path was unknown. */
  function Wanted(was: Option<Entry>, client: ClientId, info: WantInfo, nowMs: real): Entry {
    var base :=
      if was.None? then
        NewEntry(info.path).(
          inputs := info.inputs, system := info.system, features := info.features, enqMs := nowMs)
      else if was.value.system == "" then was.value.(system := info.system, features := info.features)
      else was.value;
    base.(followers := if client in base.followers then base.followers else base.followers + [client],
          cpHint := if base.cpHint < info.cpHint then info.cpHint else base.cpHint)
  }

  /** The slot after a client stops following it: an unplaced entry nobody follows is gone. */
  function Unfollowed(slot: Option<Entry>, client: ClientId): Option<Entry> {
    if slot.None? || client !in slot.value.followers then slot
    else
      var left := Without(slot.value.followers, client);
      if left == [] && slot.value.worker.None? then None else Some(slot.value.(followers := left))
  }

  /** The worker to revoke on when that client was the last follower of a placed entry. */
  function RevokedOn(slot: Option<Entry>, client: ClientId): Option<WorkerId> {
    if slot.Some? && client in slot.value.followers && Without(slot.value.followers, client) == []
    then slot.value.worker else None
  }

  /** The slot after worker w is gone: requeued if followed. */
  function Lost(slot: Option<Entry>, w: WorkerId): Option<Entry> {
    if slot.None? || slot.value.worker != Some(w) then slot
    else if slot.value.followers == [] then None
    else Some(slot.value.(worker := None))
  }

  ghost function LostTable(t: map<PathKey, Entry>, w: WorkerId): map<PathKey, Entry> {
    map p | p in t && Lost(Some(t[p]), w).Some? :: Lost(Some(t[p]), w).value
  }

  predicate RunsOn(t: map<PathKey, Entry>, p: PathKey, w: WorkerId) {
    p in t && t[p].worker == Some(w)
  }

  /** Worker w ended p. */
  ghost function EndedTable(t: map<PathKey, Entry>, p: PathKey, w: WorkerId): map<PathKey, Entry> {
    if RunsOn(t, p, w) then t - {p} else t
  }

  /** Worker w gave p back: requeued, away from w, if followed. */
  ghost function GivenBackTable(t: map<PathKey, Entry>, p: PathKey, w: WorkerId): map<PathKey, Entry> {
    if !RunsOn(t, p, w) then t
    else if t[p].followers == [] then t - {p}
    else t[p := t[p].(worker := None, avoid := Some(w))]
  }

  /** The entry after worker w reports that it runs it. */
  function Adopted(was: Option<Entry>, path: PathKey, w: WorkerId, assignId: nat): Entry {
    (if was.None? then NewEntry(path) else was.value).(worker := Some(w), assignId := assignId)
  }

  function Lookup(t: map<PathKey, Entry>, p: PathKey): Option<Entry> {
    if p in t then Some(t[p]) else None
  }

  ghost function AdoptAll(t: map<PathKey, Entry>, w: WorkerId, running: seq<(PathKey, nat)>): map<PathKey, Entry> {
    if running == [] then t
    else
      var last := running[|running| - 1];
      var before := AdoptAll(t, w, running[..|running| - 1]);
      before[last.0 := Adopted(Lookup(before, last.0), last.0, w, last.1)]
  }

  ghost predicate Reported(running: seq<(PathKey, nat)>, p: PathKey) {
    exists i :: 0 <= i < |running| && running[i].0 == p
  }

  datatype Superseded = Superseded(drv: DrvId, loser: Option<WorkerId>)

  function Flipped(slot: Option<Entry>): Option<Entry> {
    if slot.None? then None else Some(slot.value.(unplaceable := !slot.value.unplaceable))
  }
}
