/** What a dispatch promises, and why each placement keeps the promise. */
module DispatchSpec {
  import opened Lists
  import opened SchedState

  datatype Assign = Assign(drv: DrvId, worker: WorkerId, assignId: nat, clients: seq<ClientId>)

  /** Worker w could take the entry now. */
  predicate Capable(w: Worker, e: Entry) {
    w.TakesWork() && Offers(w, e) && |w.running| < w.maxJobs
  }

  /** A worker other than w is taking work and serves the entry's system and features. */
  ghost predicate OtherTakes(workers: seq<Worker>, e: Entry, w: WorkerId) {
    exists v :: 0 <= v < |workers| && v != w && workers[v].TakesWork() && Offers(workers[v], e)
  }

  /** The only worker that could take it now is the one that gave it back, and another may yet. */
  ghost predicate Stuck(workers: seq<Worker>, e: Entry) {
    forall w :: 0 <= w < |workers| && Capable(workers[w], e) ==> e.avoid == Some(w) && OtherTakes(workers, e, w)
  }

  ghost predicate AssignedIn(out: seq<Assign>, d: DrvId) {
    exists k :: 0 <= k < |out| && out[k].drv == d
  }

  /** `out` lists the placements that turn `entries0` into `entries`, under consecutive new ids. */
  ghost predicate Placements(entries0: Entries, entries: Entries, workers: seq<Worker>, out: seq<Assign>, id0: nat) {
    && |entries| == |entries0|
    && (forall i, j :: 0 <= i < j < |out| ==> out[i].drv != out[j].drv)
    && (forall k :: 0 <= k < |out| ==>
        && Unplaced(entries0, out[k].drv) && 0 <= out[k].worker < |workers|
        && out[k].assignId == id0 + k + 1 && out[k].clients == entries0[out[k].drv].value.followers
        && entries[out[k].drv]
           == Some(entries0[out[k].drv].value.(worker := Some(out[k].worker), assignId := out[k].assignId)))
    && (forall d :: 0 <= d < |entries| && entries[d] != entries0[d] ==> AssignedIn(out, d))
  }

  /** Nothing is placed on a down, draining, full or lacking worker, and on the worker that
      gave it back only if no other takes it. */
  ghost predicate Suitable(entries: Entries, workers: seq<Worker>, out: seq<Assign>) {
    forall k :: 0 <= k < |out| && Live(entries, out[k].drv) && 0 <= out[k].worker < |workers| ==>
      var e, w := entries[out[k].drv].value, out[k].worker;
      && workers[w].TakesWork() && Offers(workers[w], e) && |workers[w].running| <= workers[w].maxJobs
      && (e.avoid == Some(w) ==> !OtherTakes(workers, e, w))
  }

  /** No entry more urgent than a placed one is left waiting for the same worker. */
  ghost predicate NoInversion(entries: Entries, workers: seq<Worker>, out: seq<Assign>) {
    forall k, d ::
      0 <= k < |out| && Unplaced(entries, d) && Live(entries, out[k].drv) && 0 <= out[k].worker < |workers| ==>
      Prio(entries[d].value) < Prio(entries[out[k].drv].value) ==>
      !Offers(workers[out[k].worker], entries[d].value) || entries[d].value.avoid == Some(out[k].worker)
  }

  /** `key` is no larger than any queued key of a system with a free slot. */
  ghost predicate MostUrgent(systems: Systems, key: Key) {
    forall n, d {:trigger InQueue(systems, n, d)} ::
      InQueue(systems, n, d) && HasFreeSlot(systems, n) ==> key <= QueueOf(systems, n)[d]
  }

  ghost predicate AllStuck(entries: Entries, workers: seq<Worker>, skipped: set<DrvId>) {
    forall d :: d in skipped ==> Unplaced(entries, d) && Stuck(workers, entries[d].value)
  }

  function WithRun(workers: seq<Worker>, w: WorkerId, d: DrvId): seq<Worker>
    requires 0 <= w < |workers|
  {
    workers[w := workers[w].(running := workers[w].running + [d])]
  }

  // ------------------------------------------------------- one placement

  lemma SlotsMeanRoom(entries: Entries, workers: seq<Worker>, w: WorkerId)
    requires RunningOk(entries, workers) && 0 <= w < |workers|
    ensures FreeSlots(workers[w]) > 0 <==> workers[w].TakesWork() && |workers[w].running| < workers[w].maxJobs
  {
  }

  /** What the free index of the entry's system says of a worker that has its features. */
  lemma IndexMeansCapable(entries: Entries, workers: seq<Worker>, systems: Systems, w: WorkerId, e: Entry)
    requires RunningOk(entries, workers) && FreeOk(workers, systems, {})
    ensures Tracked(systems, e.system, w) && systems[e.system].free[w] > 0 ==>
      0 <= w < |workers| && e.system in workers[w].systems
    ensures 0 <= w < |workers| && Offers(workers[w], e) ==>
      Tracked(systems, e.system, w) && (systems[e.system].free[w] > 0 <==> Capable(workers[w], e))
      && systems[e.system].free[w] == FreeSlots(workers[w]) <= MAX_SLOTS
  {
  }

  lemma StuckStays(workers: seq<Worker>, w: WorkerId, d: DrvId, e: Entry)
    requires 0 <= w < |workers| && Stuck(workers, e)
    ensures Stuck(WithRun(workers, w, d), e)
  {
    var after := WithRun(workers, w, d);
    forall v | 0 <= v < |after| && Capable(after[v], e)
      ensures e.avoid == Some(v) && OtherTakes(after, e, v)
    {
      assert Capable(workers[v], e);
      var x :| 0 <= x < |workers| && x != v && workers[x].TakesWork() && Offers(workers[x], e);
      assert after[x].TakesWork() && Offers(after[x], e);
    }
  }

  /** A waiting entry more urgent than the one placed on w cannot run on w. */
  lemma NotPassedOver(entries: Entries, workers: seq<Worker>, systems: Systems, skipped: set<DrvId>, d: DrvId,
                      w: WorkerId, x: DrvId)
    requires QueuesOk(entries, systems, skipped) && RunningOk(entries, workers) && FreeOk(workers, systems, {})
    requires AllStuck(entries, workers, skipped)
    requires Live(entries, d) && MostUrgent(systems, Prio(entries[d].value))
    requires 0 <= w < |workers| && Capable(workers[w], entries[d].value)
    requires Unplaced(entries, x) && Prio(entries[x].value) < Prio(entries[d].value)
    ensures !Offers(workers[w], entries[x].value) || entries[x].value.avoid == Some(w)
  {
    var e := entries[x].value;
    if Offers(workers[w], e) {
      if x in skipped {
        assert Capable(workers[w], e);
      } else {
        IndexMeansCapable(entries, workers, systems, w, e);
        assert HasFreeSlot(systems, e.system);
      }
    }
  }

  lemma InversionStep(entries: Entries, workers: seq<Worker>, systems: Systems, skipped: set<DrvId>, out: seq<Assign>,
                      a: Assign)
    requires QueuesOk(entries, systems, skipped) && RunningOk(entries, workers) && FreeOk(workers, systems, {})
    requires AllStuck(entries, workers, skipped) && NoInversion(entries, workers, out)
    requires Unplaced(entries, a.drv) && MostUrgent(systems, Prio(entries[a.drv].value))
    requires 0 <= a.worker < |workers| && Capable(workers[a.worker], entries[a.drv].value)
    requires forall k :: 0 <= k < |out| ==> out[k].drv != a.drv && Live(entries, out[k].drv)
    ensures var e := entries[a.drv].value.(worker := Some(a.worker), assignId := a.assignId);
      NoInversion(entries[a.drv := Some(e)], WithRun(workers, a.worker, a.drv), out + [a])
  {
    var e := entries[a.drv].value.(worker := Some(a.worker), assignId := a.assignId);
    var after, run := entries[a.drv := Some(e)], WithRun(workers, a.worker, a.drv);
    forall k, x | 0 <= k < |out + [a]| && Unplaced(after, x) && Live(after, (out + [a])[k].drv)
                  && 0 <= (out + [a])[k].worker < |run|
                  && Prio(after[x].value) < Prio(after[(out + [a])[k].drv].value)
      ensures !Offers(run[(out + [a])[k].worker], after[x].value) || after[x].value.avoid == Some((out + [a])[k].worker)
    {
      assert Unplaced(entries, x);
      if k < |out| {
        assert (out + [a])[k] == out[k];
      } else {
        NotPassedOver(entries, workers, systems, skipped, a.drv, a.worker, x);
      }
    }
  }

  lemma SuitableStep(entries: Entries, workers: seq<Worker>, out: seq<Assign>, a: Assign)
    requires Suitable(entries, workers, out)
    requires Unplaced(entries, a.drv) && 0 <= a.worker < |workers| && Capable(workers[a.worker], entries[a.drv].value)
    requires entries[a.drv].value.avoid == Some(a.worker) ==> !OtherTakes(workers, entries[a.drv].value, a.worker)
    requires forall k :: 0 <= k < |out| ==> out[k].drv != a.drv && Live(entries, out[k].drv)
    ensures var e := entries[a.drv].value.(worker := Some(a.worker), assignId := a.assignId);
      Suitable(entries[a.drv := Some(e)], WithRun(workers, a.worker, a.drv), out + [a])
  {
  }

  lemma PlacementsStep(entries0: Entries, entries: Entries, workers: seq<Worker>, out: seq<Assign>, id0: nat, a: Assign)
    requires Placements(entries0, entries, workers, out, id0)
    requires Unplaced(entries, a.drv) && 0 <= a.worker < |workers|
    requires a.assignId == id0 + |out| + 1 && a.clients == entries[a.drv].value.followers
    ensures forall k :: 0 <= k < |out| ==> out[k].drv != a.drv && Live(entries, out[k].drv)
    ensures var e := entries[a.drv].value.(worker := Some(a.worker), assignId := a.assignId);
      Placements(entries0, entries[a.drv := Some(e)], WithRun(workers, a.worker, a.drv), out + [a], id0)
  {
    var e := entries[a.drv].value.(worker := Some(a.worker), assignId := a.assignId);
    var after := entries[a.drv := Some(e)];
    forall k | 0 <= k < |out|
      ensures out[k].drv != a.drv && Live(entries, out[k].drv)
    {
    }
    forall d | 0 <= d < |after| && after[d] != entries0[d]
      ensures AssignedIn(out + [a], d)
    {
      if d == a.drv {
        assert (out + [a])[|out|].drv == d;
      } else {
        var k :| 0 <= k < |out| && out[k].drv == d;
        assert (out + [a])[k].drv == d;
      }
    }
  }

  // -------------------------------------------------------------- skipping

  datatype Skipped = Skipped(system: string, drv: DrvId, key: Key)

  ghost function SkipSet(skipped: seq<Skipped>): set<DrvId> {
    set i | 0 <= i < |skipped| :: skipped[i].drv
  }

  /** Entries skipped so far wait outside their queue, with what is needed to put them back. */
  ghost predicate SkipsOk(entries: Entries, systems: Systems, skipped: seq<Skipped>) {
    && (forall i, j :: 0 <= i < j < |skipped| ==> skipped[i].drv != skipped[j].drv)
    && (forall i :: 0 <= i < |skipped| ==>
      && Unplaced(entries, skipped[i].drv) && entries[skipped[i].drv].value.followers != []
      && skipped[i].system == entries[skipped[i].drv].value.system != ""
      && skipped[i].key == Prio(entries[skipped[i].drv].value)
      && forall n :: !InQueue(systems, n, skipped[i].drv))
  }

  lemma NothingPlaced(entries: Entries, systems: Systems, workers: seq<Worker>, id0: nat)
    ensures Placements(entries, entries, workers, [], id0) && Suitable(entries, workers, [])
    ensures NoInversion(entries, workers, [])
    ensures SkipsOk(entries, systems, []) && AllStuck(entries, workers, {})
  {
  }

  lemma SkipSetTail(skipped: seq<Skipped>, i: nat)
    requires i < |skipped| && forall j, k :: 0 <= j < k < |skipped| ==> skipped[j].drv != skipped[k].drv
    ensures SkipSet(skipped[i + 1..]) == SkipSet(skipped[i..]) - {skipped[i].drv}
  {
  }

  lemma SkipSetAppend(skipped: seq<Skipped>, s: Skipped)
    ensures SkipSet(skipped + [s]) == SkipSet(skipped) + {s.drv}
  {
    forall d
      ensures d in SkipSet(skipped + [s]) <==> d in SkipSet(skipped) + {s.drv}
    {
      if d in SkipSet(skipped) {
        var i :| 0 <= i < |skipped| && skipped[i].drv == d;
        assert (skipped + [s])[i].drv == d;
      }
      assert (skipped + [s])[|skipped|].drv == s.drv;
    }
  }

  /** The head of a queue is live, unplaced and followed, and was not skipped: the code's
      "stale" branch is never taken. */
  lemma HeadIsDispatchable(entries: Entries, systems: Systems, skipped: seq<Skipped>, n: string, d: DrvId)
    requires QueuesOk(entries, systems, SkipSet(skipped)) && SkipsOk(entries, systems, skipped)
    requires InQueue(systems, n, d)
    ensures d !in SkipSet(skipped) && Unplaced(entries, d) && entries[d].value.followers != []
    ensures entries[d].value.system == n != "" && QueueOf(systems, n)[d] == Prio(entries[d].value)
  {
  }

  /** Erasing the head: the skipped ones stay out of every queue. */
  lemma SkipsErase(entries: Entries, systems: Systems, skipped: seq<Skipped>, n: string, d: DrvId)
    requires SkipsOk(entries, systems, skipped)
    ensures SkipsOk(entries, EraseKey(systems, n, d), skipped)
  {
  }

  lemma SkipsSame(entries: Entries, a: Systems, b: Systems, skipped: seq<Skipped>)
    requires SkipsOk(entries, a, skipped) && SameQueues(a, b)
    ensures SkipsOk(entries, b, skipped)
  {
  }

  lemma SkipsPlace(entries: Entries, systems: Systems, skipped: seq<Skipped>, d: DrvId, e: Entry)
    requires SkipsOk(entries, systems, skipped) && 0 <= d < |entries| && d !in SkipSet(skipped)
    ensures SkipsOk(entries[d := Some(e)], systems, skipped)
  {
  }

  lemma SkipsAdd(entries: Entries, systems: Systems, skipped: seq<Skipped>, s: Skipped)
    requires SkipsOk(entries, systems, skipped) && s.drv !in SkipSet(skipped)
    requires SkipsOk(entries, systems, [s])
    ensures SkipsOk(entries, systems, skipped + [s])
  {
  }

  lemma SkipOne(entries: Entries, systems: Systems, s: Skipped)
    requires Unplaced(entries, s.drv) && entries[s.drv].value.followers != []
    requires s.system == entries[s.drv].value.system != "" && s.key == Prio(entries[s.drv].value)
    requires forall n :: !InQueue(systems, n, s.drv)
    ensures SkipsOk(entries, systems, [s])
  {
  }

  lemma AllStuckAdd(entries: Entries, workers: seq<Worker>, skipped: set<DrvId>, d: DrvId)
    requires AllStuck(entries, workers, skipped) && Unplaced(entries, d) && Stuck(workers, entries[d].value)
    ensures AllStuck(entries, workers, skipped + {d})
  {
  }

  lemma AllStuckPlace(entries: Entries, workers: seq<Worker>, skipped: set<DrvId>, d: DrvId, e: Entry, w: WorkerId)
    requires AllStuck(entries, workers, skipped) && 0 <= w < |workers| && 0 <= d < |entries| && d !in skipped
    ensures AllStuck(entries[d := Some(e)], WithRun(workers, w, d), skipped)
  {
    forall x | x in skipped
      ensures Stuck(WithRun(workers, w, d), entries[x].value)
    {
      StuckStays(workers, w, d, entries[x].value);
    }
  }

  /** When no queued entry's system has a free slot, nothing more can be placed. */
  lemma NothingLeft(entries: Entries, workers: seq<Worker>, systems: Systems, skipped: set<DrvId>, d: DrvId)
    requires QueuesOk(entries, systems, skipped) && RunningOk(entries, workers) && FreeOk(workers, systems, {})
    requires AllStuck(entries, workers, skipped)
    requires forall n, x :: InQueue(systems, n, x) ==> !HasFreeSlot(systems, n)
    requires Unplaced(entries, d)
    ensures Stuck(workers, entries[d].value)
  {
    var e := entries[d].value;
    if d !in skipped {
      assert InQueue(systems, e.system, d);
      forall w | 0 <= w < |workers| && Offers(workers[w], e)
        ensures !Capable(workers[w], e)
      {
        IndexMeansCapable(entries, workers, systems, w, e);
      }
    }
  }

  // ------------------------------------------------------------- locality

  type Builders = map<PathKey, (WorkerId, nat)>

  predicate BuiltBy(builders: Builders, p: PathKey, w: WorkerId) {
    p in builders && builders[p].0 == w
  }

  /** Bytes of the inputs that worker w built last. */
  function LocalBytes(inputs: seq<PathKey>, builders: Builders, w: WorkerId): real {
    if inputs == [] then 0.0
    else
      var p := inputs[|inputs| - 1];
      LocalBytes(inputs[..|inputs| - 1], builders, w) + (if BuiltBy(builders, p, w) then builders[p].1 as real else 0.0)
  }

  ghost predicate HoldsInput(inputs: seq<PathKey>, builders: Builders, w: WorkerId) {
    exists i :: 0 <= i < |inputs| && BuiltBy(builders, inputs[i], w)
  }

  function Score(bytes: real, free: int, topFree: real): real
    requires topFree > 0.0
  {
    bytes + LOC_LAMBDA * (free as real) / topFree
  }

  /** Candidates so far: each worker `ok` admits that built one of the inputs, with its bytes. */
  ghost predicate CandidatesOk(cands: seq<(WorkerId, real)>, inputs: seq<PathKey>, builders: Builders,
                               ok: set<WorkerId>) {
    && (forall i, j :: 0 <= i < j < |cands| ==> cands[i].0 != cands[j].0)
    && (forall i :: 0 <= i < |cands| ==> cands[i].0 in ok && cands[i].1 == LocalBytes(inputs, builders, cands[i].0))
    && (forall w :: w in ok && HoldsInput(inputs, builders, w) ==> exists i :: 0 <= i < |cands| && cands[i].0 == w)
    && (forall w :: w in ok && !HoldsInput(inputs, builders, w) ==> LocalBytes(inputs, builders, w) == 0.0)
  }

  lemma NoCandidates(builders: Builders, ok: set<WorkerId>)
    ensures CandidatesOk([], [], builders, ok)
  {
  }

  /** One more input: its builder joins the candidates or gains the bytes. */
  lemma CandidatesStep(cands: seq<(WorkerId, real)>, inputs: seq<PathKey>, builders: Builders, ok: set<WorkerId>,
                       n: nat, at: nat, next: seq<(WorkerId, real)>)
    requires n < |inputs| && CandidatesOk(cands, inputs[..n], builders, ok)
    requires inputs[n] in builders && builders[inputs[n]].0 in ok ==>
      var w, b := builders[inputs[n]].0, builders[inputs[n]].1 as real;
      if at < |cands| then cands[at].0 == w && next == cands[at := (w, cands[at].1 + b)]
      else at == |cands| && (forall i :: 0 <= i < |cands| ==> cands[i].0 != w) && next == cands + [(w, b)]
    requires !(inputs[n] in builders && builders[inputs[n]].0 in ok) ==> next == cands
    ensures CandidatesOk(next, inputs[..n + 1], builders, ok)
  {
    assert inputs[..n + 1][..n] == inputs[..n] && inputs[..n + 1][n] == inputs[n];
    forall w
      ensures HoldsInput(inputs[..n + 1], builders, w) <==>
        HoldsInput(inputs[..n], builders, w) || BuiltBy(builders, inputs[n], w)
    {
      if HoldsInput(inputs[..n + 1], builders, w) {
        var i :| 0 <= i < n + 1 && BuiltBy(builders, inputs[..n + 1][i], w);
        assert i < n ==> BuiltBy(builders, inputs[..n][i], w);
      }
      if HoldsInput(inputs[..n], builders, w) {
        var i :| 0 <= i < n && BuiltBy(builders, inputs[..n][i], w);
        assert BuiltBy(builders, inputs[..n + 1][i], w);
      }
    }
    forall w | w in ok && HoldsInput(inputs[..n + 1], builders, w)
      ensures exists i :: 0 <= i < |next| && next[i].0 == w
    {
      if HoldsInput(inputs[..n], builders, w) {
        var i :| 0 <= i < |cands| && cands[i].0 == w;
        assert next[i].0 == w;
      } else {
        assert next[at].0 == w;
      }
    }
  }

  // ------------------------------------------------------- who built what

  const MAX_LAST_BUILDER: int := 0x4_0000

  ghost predicate JustBuilt(b: (WorkerId, nat), p: PathKey, w: WorkerId, outputs: seq<(PathKey, nat)>) {
    exists i :: 0 <= i < |outputs| && outputs[i].0 == p && b == (w, outputs[i].1)
  }

  /** What is remembered is what w just reported or what was; the last report always is, and the
      table stays within its bound. */
  ghost predicate Remembered(was: Builders, now: Builders, w: WorkerId, outputs: seq<(PathKey, nat)>) {
    && (forall p :: p in now ==> JustBuilt(now[p], p, w, outputs) || (p in was && now[p] == was[p]))
    && (outputs != [] ==>
        outputs[|outputs| - 1].0 in now && now[outputs[|outputs| - 1].0] == (w, outputs[|outputs| - 1].1))
    && (|was| <= MAX_LAST_BUILDER ==> |now| <= MAX_LAST_BUILDER)
  }

  lemma NothingBuilt(was: Builders, w: WorkerId)
    ensures Remembered(was, was, w, [])
  {
  }

  lemma RememberMore(was: Builders, now: Builders, w: WorkerId, outputs: seq<(PathKey, nat)>, next: (PathKey, nat))
    requires Remembered(was, now, w, outputs)
    ensures var kept := if next.0 !in now && |now| >= MAX_LAST_BUILDER then map[] else now;
      Remembered(was, kept[next.0 := (w, next.1)], w, outputs + [next])
  {
    var kept := if next.0 !in now && |now| >= MAX_LAST_BUILDER then map[] else now;
    var after, all := kept[next.0 := (w, next.1)], outputs + [next];
    assert after.Keys == kept.Keys + {next.0};
    assert |after| == |after.Keys|;
    forall p | p in after
      ensures JustBuilt(after[p], p, w, all) || (p in was && after[p] == was[p])
    {
      assert all[|outputs|] == next;
      if p != next.0 && JustBuilt(now[p], p, w, outputs) {
        var i :| 0 <= i < |outputs| && outputs[i].0 == p && now[p] == (w, outputs[i].1);
        assert all[i] == outputs[i];
      }
    }
  }
}
