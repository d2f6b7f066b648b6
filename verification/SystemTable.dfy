/**
 * The per-system queues and free-slot indexes (src/daemon/scheduler.hh,
 * SystemState and Core::sys). `view` is what they stand for; every operation
 * on the heaps and buckets is the corresponding map operation on `view`.
 */
module SystemTables {
  import opened Lists
  import opened SchedState
  import opened IndexedHeaps
  import opened FreeIndexes
  import opened HeapOrder
  import Buckets

  datatype SystemRefs = SystemRefs(queue: IndexedHeap, free: FreeIndex)

  ghost predicate Synced(refs: SystemRefs, s: SystemState)
    reads refs.queue, refs.free
  {
    && refs.queue.Valid() && refs.queue.Contents() == s.queue
    && refs.free.Valid() && refs.free.Contents() == s.free
  }

  lemma SyncedParts(refs: SystemRefs, s: SystemState)
    ensures Synced(refs, s) <==>
      && refs.queue.Valid() && refs.queue.Contents() == s.queue
      && refs.free.Valid() && refs.free.Contents() == s.free
  {
  }

  method NewRefs(name: string) returns (refs: SystemRefs)
    ensures fresh(refs.queue) && fresh(refs.free) && refs.queue.owner == refs.free.owner == name
    ensures Synced(refs, SystemState(map[], map[]))
  {
    var queue := new IndexedHeap(name);
    var free := new FreeIndex(name);
    refs := SystemRefs(queue, free);
  }

  class SystemTable {
    var systems: map<string, SystemRefs>
    ghost var view: Systems
    ghost var Repr: set<object>

    ghost predicate Owned(name: string)
      reads this
    {
      && name in systems
      && systems[name].queue in Repr && systems[name].queue.owner == name
      && systems[name].free in Repr && systems[name].free.owner == name
    }

    ghost predicate Valid()
      reads this, Repr
      ensures Valid() ==> this in Repr
    {
      && this in Repr
      && systems.Keys == view.Keys
      && (forall n :: n in systems ==> Owned(n) && Synced(systems[n], view[n]))
    }

    constructor ()
      ensures Valid() && fresh(Repr) && view == map[]
    {
      systems, view := map[], map[];
      Repr := {this};
    }

    function Names(): (names: set<string>)
      reads this, Repr
      requires Valid()
      ensures names == view.Keys
    {
      systems.Keys
    }

    predicate Has(name: string)
      reads this, Repr
      requires Valid()
      ensures Has(name) <==> name in view
    {
      name in systems
    }

    method Open(name: string)
      requires Valid()
      modifies this
      ensures Valid() && fresh(Repr - old(Repr)) && old(Repr) <= Repr
      ensures view == old(view)[name := Sys(old(view), name)]
      ensures Owned(name) && (name in old(systems) ==> systems[name] == old(systems)[name] && old(Owned(name)))
      ensures name !in old(systems) ==> fresh(systems[name].queue) && fresh(systems[name].free)
      ensures name in view
    {
      hide Synced, IndexedHeap.Valid, IndexedHeap.Contents, FreeIndex.Valid, FreeIndex.Contents;
      hide SameFree, SameQueues, KeysBut, InQueue, Tracked;
      if name in systems {
        return;
      }
      var refs := NewRefs(name);
      systems := systems[name := refs];
      Repr := Repr + {refs.queue, refs.free};
      view := view[name := SystemState(map[], map[])];
    }

    method ChangeQueue(name: string, d: DrvId, key: Option<Key>)
      requires Valid() && name in systems && d >= 0
      modifies this`view, systems[name].queue
      ensures Valid()
      ensures view == old(view)[name := old(view)[name].(queue :=
        if key.Some? then old(view)[name].queue[d := key.value] else old(view)[name].queue - {d})]
    {
      hide Synced, IndexedHeap.Valid, IndexedHeap.Contents, FreeIndex.Valid, FreeIndex.Contents;
      SyncedParts(systems[name], view[name]);
      if key.Some? {
        systems[name].queue.Set(d, key.value);
        view := view[name := view[name].(queue := view[name].queue[d := key.value])];
      } else {
        systems[name].queue.Erase(d);
        view := view[name := view[name].(queue := view[name].queue - {d})];
      }
      SyncedParts(systems[name], view[name]);
    }

    method ChangeFree(name: string, w: WorkerId, val: Option<int>)
      requires Valid() && name in systems && w >= 0
      requires val.Some? ==> w in view[name].free
      modifies this`view, systems[name].free
      ensures Valid()
      ensures view == old(view)[name := old(view)[name].(free :=
        if val.Some? then old(view)[name].free[w := val.value]
        else if w in old(view)[name].free then old(view)[name].free else old(view)[name].free[w := 0])]
    {
      hide Synced, IndexedHeap.Valid, IndexedHeap.Contents, FreeIndex.Valid, FreeIndex.Contents;
      SyncedParts(systems[name], view[name]);
      if val.Some? {
        systems[name].free.Set(w, val.value);
        view := view[name := view[name].(free := view[name].free[w := val.value])];
      } else {
        systems[name].free.Push(w);
        view := view[name := view[name].(
        free := if w in view[name].free then view[name].free else view[name].free[w := 0])];
      }
      SyncedParts(systems[name], view[name]);
    }

    method QueueSet(name: string, d: DrvId, key: Key)
      requires Valid() && d >= 0
      modifies Repr
      ensures Valid() && fresh(Repr - old(Repr))
      ensures view == SetKey(old(view), name, d, key)
    {
      hide Valid, Synced, SameFree, SameQueues, KeysBut;
      Open(name);
      ChangeQueue(name, d, Some(key));
    }

    method QueueErase(name: string, d: DrvId)
      requires Valid() && d >= 0
      modifies Repr
      ensures Valid() && fresh(Repr - old(Repr))
      ensures view == EraseKey(old(view), name, d)
    {
      hide Valid, Synced, SameFree, SameQueues, KeysBut;
      Open(name);
      ChangeQueue(name, d, None);
    }

    method QueueEmpty(name: string) returns (empty: bool)
      requires Valid() && name in view
      ensures empty <==> QueueOf(view, name) == map[]
    {
      var n := systems[name].queue.Size();
      empty := n == 0;
    }

    /** The most urgent drv of a system, least id first among equals. */
    method QueueTop(name: string) returns (top: Item)
      requires Valid() && name in view && QueueOf(view, name) != map[]
      ensures InQueue(view, name, top.id) && QueueOf(view, name)[top.id] == top.key
      ensures forall d :: InQueue(view, name, d) ==> top.key <= QueueOf(view, name)[d]
    {
      top := systems[name].queue.Top();
      forall d | InQueue(view, name, d)
        ensures top.key <= QueueOf(view, name)[d]
      {
        assert Le(top, Item(QueueOf(view, name)[d], d));
      }
    }

    method Drop(name: string)
      requires Valid() && name in view && QueueOf(view, name) == map[]
      modifies this
      ensures Valid() && Repr == old(Repr)
      ensures view == Forget(old(view), name)
    {
      hide Synced, IndexedHeap.Valid, IndexedHeap.Contents, FreeIndex.Valid, FreeIndex.Contents;
      hide SameFree, SameQueues, KeysBut, InQueue, Tracked;
      systems := systems - {name};
      view := Forget(view, name);
    }

    method FreePush(name: string, w: WorkerId)
      requires Valid() && w >= 0
      modifies Repr
      ensures Valid() && fresh(Repr - old(Repr))
      ensures Tracked(old(view), name, w) ==> view == old(view)
      ensures !Tracked(old(view), name, w) ==> view == SetFree(old(view), name, w, 0)
    {
      hide Valid, Synced, SameFree, SameQueues, KeysBut;
      Open(name);
      ChangeFree(name, w, None);
    }

    /** Needs `w` to be known there: the "unknown worker" error cannot occur. */
    method FreeSet(name: string, w: WorkerId, val: int)
      requires Valid() && w >= 0 && Tracked(view, name, w)
      modifies Repr
      ensures Valid() && fresh(Repr - old(Repr))
      ensures view == SetFree(old(view), name, w, val)
    {
      hide Valid, Synced, SameFree, SameQueues, KeysBut;
      Open(name);
      ChangeFree(name, w, Some(val));
    }

    function FreeGet(name: string, w: WorkerId): (r: int)
      reads this, Repr
      requires Valid() && w >= 0
      ensures r == if Tracked(view, name, w) then view[name].free[w] else 0
    {
      if name in systems then
        assert systems[name].free in Repr;
        systems[name].free.Get(w)
      else 0
    }

    method HasFree(name: string) returns (some: bool)
      requires Valid() && name in view
      ensures some <==> HasFreeSlot(view, name)
    {
      var w := Emptiest(name);
      some := w.Some?;
    }

    method Emptiest(name: string) returns (w: Option<WorkerId>)
      requires Valid() && name in view
      ensures w.None? ==> forall v :: Tracked(view, name, v) ==> view[name].free[v] <= 0
      ensures w.Some? ==> Tracked(view, name, w.value) && view[name].free[w.value] > 0
      ensures w.Some? ==> forall v :: Tracked(view, name, v) ==>
        Buckets.Clamp(view[name].free[v]) <= Buckets.Clamp(view[name].free[w.value])
    {
      SyncedParts(systems[name], view[name]);
      w := systems[name].free.Emptiest();
      assert forall v :: Tracked(view, name, v) <==> v in systems[name].free.Contents();
    }
  }
}
