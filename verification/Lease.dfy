/**
 * The lease protocol between one worker and its scheduler: the worker's Expect
 * table (Builder in src/daemon/coordinator.cc) against the scheduler's placement
 * table, over FIFO sessions that break and are reconciled by Hello.
 */
module Leases {
  import opened Lists
  import opened SchedState

  datatype Lease = Lease(assignId: nat, claimed: bool, running: bool, revoked: bool)
  type Expects = map<PathKey, Lease>

  /** `givenBack`: the drv is to be placed elsewhere; otherwise its entry ends. */
  datatype Done = Done(path: PathKey, assignId: nat, givenBack: bool)

  /** The Expect table after one critical section, and the Dones its thread sends after it. */
  datatype Acted = Acted(expected: Expects, dones: set<Done>)

  function Expected(t: Expects, p: PathKey, assignId: nat, draining: bool): Acted {
    if p == "" then Acted(t, {})
    else if draining then Acted(t, {Done(p, assignId, true)})
    else if p in t && t[p].claimed then Acted(t, {})
    else if p in t then Acted(t[p := t[p].(assignId := assignId)], {})
    else Acted(t[p := Lease(assignId, false, false, false)], {})
  }

  function Revoked(t: Expects, p: PathKey): Acted {
    if p !in t then Acted(t, {})
    else if t[p].running then Acted(t[p := t[p].(revoked := true)], {})
    else Acted(t - {p}, {Done(p, t[p].assignId, false)})
  }

  /** The build reports its end, also of a drv without a lease. */
  function Ended(t: Expects, p: PathKey, givenBack: bool): Acted {
    Acted(t - {p}, {Done(p, if p in t then t[p].assignId else 0, givenBack)})
  }

  /** Give back the unclaimed leases among `which`. */
  function Taken(t: Expects, which: set<PathKey>): Acted {
    var gone := set p | p in t && !t[p].claimed && p in which;
    Acted(t - gone, set p | p in gone :: Done(p, t[p].assignId, true))
  }

  lemma TakenStep(t: Expects, which: set<PathKey>, p: PathKey)
    requires p in t && p !in which
    ensures Taken(t, which + {p}) ==
      if t[p].claimed then Taken(t, which)
      else Acted(Taken(t, which).expected - {p}, Taken(t, which).dones + {Done(p, t[p].assignId, true)})
  {
  }

  ghost predicate Announces(dones: set<Done>, p: PathKey) {
    exists d :: d in dones && d.path == p
  }

  /** A lease leaves the table only with a Done for it. */
  ghost predicate Conserves(t: Expects, a: Acted) {
    forall p :: p in t && p !in a.expected ==> Announces(a.dones, p)
  }

  lemma EveryLeaseEndsWithDone(t: Expects, p: PathKey, assignId: nat, flag: bool, which: set<PathKey>)
    ensures Conserves(t, Expected(t, p, assignId, flag))
    ensures p != "" ==>
      p in Expected(t, p, assignId, flag).expected || Announces(Expected(t, p, assignId, flag).dones, p)
    ensures Conserves(t, Revoked(t, p)) && Conserves(t, Ended(t, p, flag)) && Conserves(t, Taken(t, which))
  {
    if p in t && !t[p].running {
      assert Done(p, t[p].assignId, false) in Revoked(t, p).dones;
    }
    assert Done(p, assignId, true) in {Done(p, assignId, true)};
    assert Done(p, if p in t then t[p].assignId else 0, flag) in Ended(t, p, flag).dones;
    forall q | q in t && q !in Taken(t, which).expected
      ensures Announces(Taken(t, which).dones, q)
    {
      assert Done(q, t[q].assignId, true) in Taken(t, which).dones;
    }
  }

  /** Critical sections of the builder. Each returns the Dones to send once the lock is released. */
  class Builder {
    var expected: Expects
    var draining: bool

    constructor ()
      ensures expected == map[] && !draining
    {
      expected, draining := map[], false;
    }

    method OnExpect(p: PathKey, assignId: nat) returns (dones: seq<Done>)
      modifies this`expected
      ensures Acted(expected, set d | d in dones) == Expected(old(expected), p, assignId, draining)
    {
      dones := [];
      if p == "" {
        return;
      }
      if draining {
        dones := [Done(p, assignId, true)];
        return;
      }
      var lease := if p in expected then expected[p] else Lease(0, false, false, false);
      if lease.claimed {
        return;
      }
      expected := expected[p := lease.(assignId := assignId)];
    }

    method OnRevoke(p: PathKey) returns (dones: seq<Done>)
      modifies this`expected
      ensures Acted(expected, set d | d in dones) == Revoked(old(expected), p)
    {
      dones := [];
      if p !in expected {
        return;
      }
      if expected[p].running {
        expected := expected[p := expected[p].(revoked := true)];
        return;
      }
      dones := [Done(p, expected[p].assignId, false)];
      expected := expected - {p};
    }

    method Claim(p: PathKey)
      modifies this`expected
      ensures expected ==
        if p in old(expected) then old(expected)[p := old(expected)[p].(claimed := true)] else old(expected)
    {
      if p in expected {
        expected := expected[p := expected[p].(claimed := true)];
      }
    }

    /** None: not expected here. Otherwise whether the caller only attaches to a running build. */
    method Admit(p: PathKey) returns (attach: Option<bool>)
      modifies this`expected
      ensures attach == if p in old(expected) then Some(old(expected)[p].running) else None
      ensures expected == if p in old(expected)
        then old(expected)[p := old(expected)[p].(claimed := true, running := true)] else old(expected)
    {
      if p !in expected {
        return None;
      }
      attach := Some(expected[p].running);
      expected := expected[p := expected[p].(claimed := true, running := true)];
    }

    method Finished(p: PathKey, givenBack: bool) returns (done: Done)
      modifies this`expected
      ensures Acted(expected, {done}) == Ended(old(expected), p, givenBack)
    {
      var assignId := 0;
      if p in expected {
        assignId := expected[p].assignId;
        expected := expected - {p};
      }
      done := Done(p, assignId, givenBack);
    }

    method TakeUnclaimed(which: set<PathKey>) returns (dones: seq<Done>)
      modifies this`expected
      ensures Acted(expected, set d | d in dones) == Taken(old(expected), which) && NoDup(dones)
    {
      dones := [];
      var todo := expected.Keys;
      while todo != {}
        invariant todo <= old(expected).Keys
        invariant Acted(expected, set d | d in dones) == Taken(old(expected), which - todo)
        invariant NoDup(dones) && forall d :: d in dones ==> d.path !in todo
        decreases todo
      {
        var p :| p in todo;
        ghost var dones0 := dones;
        TakenStep(old(expected), which - todo, p);
        assert which - (todo - {p}) == if p in which then which - todo + {p} else which - todo;
        todo := todo - {p};
        if !expected[p].claimed && p in which {
          dones := dones + [Done(p, expected[p].assignId, true)];
          assert (set d | d in dones) == (set d | d in dones0) + {Done(p, expected[p].assignId, true)};
          expected := expected - {p};
        }
      }
    }
  }
}
