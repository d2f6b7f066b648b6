/**
 * Interleavings of one worker, its sessions and the scheduler. Every field is shared
 * state; every step is one critical section, one channel operation or one delivery.
 */
module LeaseProtocol {
  import opened Lists
  import opened SchedState
  import opened Leases

  type Session = nat

  /** The messages in flight on a session. */
  function In<M>(channels: map<Session, seq<M>>, n: Session): seq<M> {
    if n in channels then channels[n] else []
  }

  datatype ToSched = Hello(running: seq<(PathKey, nat)>) | Ended(done: Done)
  datatype ToWorker = Expect(path: PathKey, assignId: nat) | Revoke(path: PathKey)

  /** A thread about to send a Done: it still has to read the send function, or it read the
      one of session `via`. */
  datatype Sending = Sending(done: Done, via: Option<Session>)

  /** How far the session thread is with the current session: send function set; table
      copied into a Hello; Hello sent, so reading commands. */
  datatype Phase = Connected | Snapshot(running: seq<(PathKey, nat)>) | Greeted

  datatype System = System(
    // the worker
    expected: Expects,
    sending: multiset<Sending>,
    cur: Session,                       // the session of the send function
    phase: Phase,
    // the sessions: those before the current one are over, though the scheduler may not know
    up: map<Session, seq<ToSched>>,
    down: seq<ToWorker>,                // of the current session; nobody reads the others
    broken: bool,                       // some side failed the current session
    // the scheduler
    table: map<PathKey, Entry>,
    at: Option<Session>,                // the session that speaks for the worker
    alive: bool)                        // the worker is up and commands can be sent to it
  {
    function Sends(n: Session, msg: ToSched): System { this.(up := up[n := In(up, n) + [msg]]) }
    function Commands(n: Session, cmd: ToWorker): System { if n == cur then this.(down := down + [cmd]) else this }
    function Breaks(n: Session): System { this.(broken := broken || n == cur) }
    predicate Unbroken(n: Session) { n == cur && !broken }
    ghost function Act(a: Acted): System {
      this.(expected := a.expected, sending := sending + multiset(set d | d in a.dones :: Sending(d, None)))
    }
  }

  /** Session 0 stands for having none yet. */
  ghost function Start(): System {
    System(map[], multiset{}, 0, Greeted, map[], [], true, map[], None, false)
  }

  datatype Step =
    // the session thread
    | Connect | TakeSnapshot(running: seq<(PathKey, nat)>) | Greet(ok: bool) | Receive(draining: bool)
    // build requests, ticks and drains, by any thread
    | Claim(path: PathKey) | Admit(path: PathKey) | Finish(path: PathKey, givenBack: bool) | Take(which: set<PathKey>)
    // a thread sending a Done
    | Read(done: Done) | Write(out: Sending, ok: bool)
    | Break(session: Session)
    // the scheduler
    | Deliver(session: Session) | Place(path: PathKey, assignId: nat, ok: bool) | Cancel(path: PathKey)
    | Elsewhere(table: map<PathKey, Entry>) | Gone(session: Session)

  ghost function RunningPaths(t: map<PathKey, Entry>, w: WorkerId): set<PathKey> {
    set p | p in t && RunsOn(t, p, w)
  }

  /** A Hello lists the Expect table, in any order. */
  ghost predicate Copies(running: seq<(PathKey, nat)>, t: Expects) {
    && (forall i :: 0 <= i < |running| ==> running[i].0 in t && t[running[i].0].assignId == running[i].1)
    && (forall p :: p in t ==> Reported(running, p))
  }

  // ----------------------------------------------------------------- the steps

  ghost function DoGreet(s: System, ok: bool): System {
    if !s.phase.Snapshot? then s
    else
      var s1 := s.(phase := Greeted);
      if ok && !s.broken then s1.Sends(s.cur, Hello(s.phase.running)) else s1.Breaks(s.cur)
  }

  ghost function DoReceive(s: System, draining: bool): System {
    if !s.phase.Greeted? || s.down == [] then s
    else
      var s1 := s.(down := s.down[1..]);
      match s.down[0]
      case Expect(p, assignId) => s1.Act(Expected(s.expected, p, assignId, draining))
      case Revoke(p) => s1.Act(Revoked(s.expected, p))
  }

  ghost function DoRead(s: System, done: Done): System {
    if Sending(done, None) !in s.sending then s
    else s.(sending := s.sending - multiset{Sending(done, None)} + multiset{Sending(done, Some(s.cur))})
  }

  ghost function DoWrite(s: System, out: Sending, ok: bool): System {
    if out !in s.sending || out.via.None? then s
    else
      var s1 := s.(sending := s.sending - multiset{out});
      if ok && s.Unbroken(out.via.value) then s1.Sends(out.via.value, Ended(out.done)) else s1.Breaks(out.via.value)
  }

  /** The scheduler acts on a message. All but a Hello need one before it on the same session. */
  ghost function Heard(s: System, w: WorkerId, n: Session, msg: ToSched): System {
    match msg
    case Hello(running) =>
      s.(table := AdoptAll(LostTable(s.table, w), w, running), at := Some(n), alive := true)
    case Ended(done) =>
      if s.at != Some(n) then s.Breaks(n)
      else if done.givenBack then s.(table := GivenBackTable(s.table, done.path, w))
      else s.(table := EndedTable(s.table, done.path, w))
  }

  ghost function DoDeliver(s: System, w: WorkerId, n: Session): System {
    if In(s.up, n) == [] then s else Heard(s.(up := s.up[n := In(s.up, n)[1..]]), w, n, In(s.up, n)[0])
  }

  /** Dispatch places an unplaced entry here and tells the worker. */
  ghost function DoPlace(s: System, w: WorkerId, p: PathKey, assignId: nat, ok: bool): System {
    if !s.alive || s.at.None? || p == "" || p !in s.table || s.table[p].worker.Some? then s
    else
      var s1 := s.(table := s.table[p := s.table[p].(worker := Some(w), assignId := assignId)]);
      if ok then s1.Commands(s.at.value, Expect(p, assignId))
      else s1.(table := LostTable(s1.table, w), alive := false).Breaks(s.at.value)
  }

  ghost function Apply(s: System, w: WorkerId, step: Step): System {
    match step
    case Connect =>
      if s.broken then s.(cur := s.cur + 1, phase := Connected, down := [], broken := false) else s
    case TakeSnapshot(running) =>
      if s.phase.Connected? && Copies(running, s.expected) then s.(phase := Snapshot(running)) else s
    case Greet(ok) => DoGreet(s, ok)
    case Receive(draining) => DoReceive(s, draining)
    case Claim(p) =>
      if p in s.expected then s.(expected := s.expected[p := s.expected[p].(claimed := true)]) else s
    case Admit(p) =>
      if p in s.expected then s.(expected := s.expected[p := s.expected[p].(claimed := true, running := true)]) else s
    case Finish(p, givenBack) => s.Act(Leases.Ended(s.expected, p, givenBack))
    case Take(which) => s.Act(Taken(s.expected, which))
    case Read(done) => DoRead(s, done)
    case Write(out, ok) => DoWrite(s, out, ok)
    case Break(n) => s.Breaks(n)
    case Deliver(n) => DoDeliver(s, w, n)
    case Place(p, assignId, ok) => DoPlace(s, w, p, assignId, ok)
    case Cancel(p) => if s.alive && s.at.Some? then s.Commands(s.at.value, Revoke(p)) else s
    case Elsewhere(table) =>
      if RunningPaths(table, w) <= RunningPaths(s.table, w) then s.(table := table) else s
    case Gone(n) =>
      if s.at == Some(n) then s.(table := LostTable(s.table, w), at := None, alive := false).Breaks(n)
      else s.Breaks(n)
  }

  ghost function Run(s: System, w: WorkerId, steps: seq<Step>): System
    decreases |steps|
  {
    if steps == [] then s else Run(Apply(s, w, steps[0]), w, steps[1..])
  }

  // ------------------------------------------------------------- the invariant

  ghost predicate DoneInFlight(s: System, p: PathKey) {
    exists i :: 0 <= i < |In(s.up, s.cur)| && In(s.up, s.cur)[i].Ended? && In(s.up, s.cur)[i].done.path == p
  }

  ghost predicate DonePending(s: System, p: PathKey) {
    exists x :: x in s.sending && x.done.path == p && (x.via.None? || x.via == Some(s.cur))
  }

  ghost predicate ExpectInFlight(s: System, p: PathKey) {
    p != "" && exists i :: 0 <= i < |s.down| && s.down[i].Expect? && s.down[i].path == p
  }

  /** Worker and scheduler will agree on p, by what is in the table or under way. */
  ghost predicate Covered(s: System, p: PathKey) {
    p in s.expected || ExpectInFlight(s, p) || DoneInFlight(s, p) || DonePending(s, p)
  }

  ghost predicate AllCovered(s: System, running: seq<(PathKey, nat)>) {
    forall i :: 0 <= i < |running| ==> Covered(s, running[i].0)
  }

  ghost predicate SessionsOk(s: System) {
    && 0 <= s.cur
    && (forall n :: n > s.cur ==> In(s.up, n) == [])
    && (s.at.Some? ==> 0 <= s.at.value <= s.cur)
    && (forall x :: x in s.sending && x.via.Some? ==> 0 <= x.via.value <= s.cur)
  }

  /** One Hello per session, sent by Greet and delivered before the session speaks for the worker. */
  ghost predicate HelloOk(s: System) {
    && (forall i, j :: 0 <= i < j < |In(s.up, s.cur)| ==> !(In(s.up, s.cur)[i].Hello? && In(s.up, s.cur)[j].Hello?))
    && (!s.phase.Greeted? || s.at == Some(s.cur) ==> forall i :: 0 <= i < |In(s.up, s.cur)| ==>
        !In(s.up, s.cur)[i].Hello?)
    && (s.at == Some(s.cur) ==> s.phase.Greeted?)
  }

  ghost predicate CoverOk(s: System, w: WorkerId) {
    !s.broken ==>
      && (s.phase.Snapshot? ==> AllCovered(s, s.phase.running))
      && (forall i :: 0 <= i < |In(s.up, s.cur)| && In(s.up, s.cur)[i].Hello? ==>
          AllCovered(s, In(s.up, s.cur)[i].running))
      && (s.at == Some(s.cur) ==> forall p :: p in RunningPaths(s.table, w) ==> Covered(s, p))
  }

  ghost predicate Inv(s: System, w: WorkerId) {
    SessionsOk(s) && HelloOk(s) && CoverOk(s, w)
  }

  // ------------------------------------------------------- every step keeps it

  /** Nothing covered is lost, and nothing more has to be covered. */
  ghost predicate Covers(s: System, s': System, w: WorkerId) {
    && s'.cur == s.cur && (s.broken ==> s'.broken) && s'.phase == s.phase
    && (!s'.broken ==>
        && (forall p :: Covered(s, p) ==> Covered(s', p))
        && (forall i :: 0 <= i < |In(s'.up, s.cur)| && In(s'.up, s.cur)[i].Hello? ==>
            In(s'.up, s.cur)[i] in In(s.up, s.cur))
        && (s'.at == Some(s.cur) ==> s.at == Some(s.cur) && RunningPaths(s'.table, w) <= RunningPaths(s.table, w)))
  }

  lemma CoverKept(s: System, s': System, w: WorkerId)
    requires CoverOk(s, w) && Covers(s, s', w)
    ensures CoverOk(s', w)
  {
  }

  /** A critical section of the builder: a lease that leaves the table leaves a Done to send. */
  lemma ActCovers(s: System, a: Acted, w: WorkerId)
    requires Conserves(s.expected, a)
    ensures Covers(s, s.Act(a), w) && forall p :: Covered(s, p) ==> Covered(s.Act(a), p)
  {
    var s' := s.Act(a);
    forall p | Covered(s, p)
      ensures Covered(s', p)
    {
      if p in s.expected && p !in a.expected {
        var d :| d in a.dones && d.path == p;
        assert Sending(d, None) in (set d | d in a.dones :: Sending(d, None));
        assert Sending(d, None) in s'.sending;
      } else if DonePending(s, p) {
        var x :| x in s.sending && x.done.path == p && (x.via.None? || x.via == Some(s.cur));
        assert x in s'.sending;
      } else if ExpectInFlight(s, p) {
        assert s'.down == s.down;
      } else if DoneInFlight(s, p) {
        assert In(s'.up, s'.cur) == In(s.up, s.cur);
      }
    }
  }

  /** Session bookkeeping that a step leaves as it is, or moves a message other than a Hello. */
  lemma ShapeKept(s: System, s': System, out: seq<ToSched>)
    requires SessionsOk(s) && HelloOk(s)
    requires s'.cur == s.cur && s'.phase == s.phase
    requires s'.at.Some? ==> s'.at == s.at || s'.at.value < s.cur
    requires forall n :: n > s.cur ==> In(s'.up, n) == In(s.up, n)
    requires In(s'.up, s.cur) == In(s.up, s.cur) + out || In(s.up, s.cur) == out + In(s'.up, s.cur)
    requires forall i :: 0 <= i < |out| ==> !out[i].Hello?
    requires forall x :: x in s'.sending && x.via.Some? ==> x in s.sending || x.via.value == s.cur
    ensures SessionsOk(s') && HelloOk(s')
  {
    if In(s.up, s.cur) == out + In(s'.up, s.cur) {
      forall i | 0 <= i < |In(s'.up, s.cur)|
        ensures In(s'.up, s.cur)[i] == In(s.up, s.cur)[i + |out|]
      {
      }
    }
  }

  lemma ActShape(s: System, a: Acted)
    requires SessionsOk(s) && HelloOk(s)
    ensures SessionsOk(s.Act(a)) && HelloOk(s.Act(a))
  {
  }

  lemma ActKeeps(s: System, a: Acted, w: WorkerId)
    requires Inv(s, w) && Conserves(s.expected, a)
    ensures Inv(s.Act(a), w)
  {
    ActShape(s, a);
    ActCovers(s, a, w);
    CoverKept(s, s.Act(a), w);
  }

  ghost function Popped(s: System): System
    requires s.down != []
  {
    s.(down := s.down[1..])
  }

  /** The worker took its next command: what it did about it covers what the command covered. */
  lemma PopCovers(s: System, p: PathKey)
    requires s.down != [] && Covered(s, p)
    ensures Covered(Popped(s), p) || (p != "" && s.down[0].Expect? && s.down[0].path == p)
  {
  }

  lemma NewDonePending(s: System, a: Acted, p: PathKey)
    requires p in a.expected || Announces(a.dones, p)
    ensures Covered(s.Act(a), p)
  {
    if Announces(a.dones, p) {
      var d :| d in a.dones && d.path == p;
      assert Sending(d, None) in (set d | d in a.dones :: Sending(d, None));
      assert Sending(d, None) in s.Act(a).sending;
    }
  }

  lemma ReceiveKeeps(s: System, w: WorkerId, draining: bool)
    requires Inv(s, w)
    ensures Inv(DoReceive(s, draining), w)
  {
    if s.phase.Greeted? && s.down != [] {
      hide Covered;
      var s1, cmd := Popped(s), s.down[0];
      assert SessionsOk(s1) && HelloOk(s1) by {
        assert In(s1.up, s.cur) == In(s.up, s.cur);
      }
      var a :=
      if cmd.Expect? then Expected(s.expected, cmd.path, cmd.assignId, draining) else Revoked(s.expected, cmd.path);
      EveryLeaseEndsWithDone(s.expected, cmd.path, if cmd.Expect? then cmd.assignId else 0, draining, {});
      ActShape(s1, a);
      ActCovers(s1, a, w);
      var s' := s1.Act(a);
      forall p | Covered(s, p)
        ensures Covered(s', p)
      {
        PopCovers(s, p);
        if !Covered(s1, p) {
          NewDonePending(s1, a, p);
        }
      }
      CoverKept(s, s', w);
    }
  }

  lemma ReadKeeps(s: System, w: WorkerId, done: Done)
    requires Inv(s, w)
    ensures Inv(DoRead(s, done), w)
  {
    var s' := DoRead(s, done);
    if Sending(done, None) in s.sending {
      assert s'.down == s.down && In(s'.up, s.cur) == In(s.up, s.cur);
      ShapeKept(s, s', []);
      forall p | Covered(s, p)
        ensures Covered(s', p)
      {
        if DonePending(s, p) {
          var x :| x in s.sending && x.done.path == p && (x.via.None? || x.via == Some(s.cur));
          assert x in s'.sending || (x == Sending(done, None) && Sending(done, Some(s.cur)) in s'.sending);
        }
      }
      CoverKept(s, s', w) by {
        hide Covered, SessionsOk, HelloOk;
      }
    }
  }

  lemma WriteKeeps(s: System, w: WorkerId, out: Sending, ok: bool)
    requires Inv(s, w)
    ensures Inv(DoWrite(s, out, ok), w)
  {
    if out in s.sending && out.via.Some? {
      assert 0 <= out.via.value <= s.cur;
      if ok && s.Unbroken(out.via.value) {
        SentKeeps(s, w, out);
      } else {
        UnsentKeeps(s, w, out);
      }
    }
  }

  lemma SentKeeps(s: System, w: WorkerId, out: Sending)
    requires Inv(s, w) && out in s.sending && out.via == Some(s.cur) && !s.broken
    ensures Inv(DoWrite(s, out, true), w)
  {
    var s' := DoWrite(s, out, true);
    ShapeKept(s, s', [Ended(out.done)]);
    hide Covered, SessionsOk, HelloOk;
    forall p | Covered(s, p)
      ensures Covered(s', p)
    {
      WriteCovers(s, out, p);
    }
    CoverKept(s, s', w);
  }

  lemma UnsentKeeps(s: System, w: WorkerId, out: Sending)
    requires Inv(s, w) && out in s.sending && out.via.Some?
    ensures Inv(s.(sending := s.sending - multiset{out}).Breaks(out.via.value), w)
  {
    var s' := s.(sending := s.sending - multiset{out}).Breaks(out.via.value);
    ShapeKept(s, s', []);
    hide Covered, SessionsOk, HelloOk;
    forall p | Covered(s, p) && out.via.value != s.cur
      ensures Covered(s', p)
    {
      DropCovers(s, out, p);
    }
    CoverKept(s, s', w);
  }

  /** A Done for a session that is gone covers nothing of the current one. */
  lemma DropCovers(s: System, out: Sending, p: PathKey)
    requires out.via.Some? && out.via != Some(s.cur) && Covered(s, p)
    ensures Covered(s.(sending := s.sending - multiset{out}).Breaks(out.via.value), p)
  {
  }

  /** A pending Done becomes one in flight. */
  lemma WriteCovers(s: System, out: Sending, p: PathKey)
    requires out in s.sending && out.via == Some(s.cur) && !s.broken && Covered(s, p)
    ensures Covered(DoWrite(s, out, true), p)
  {
    var s' := DoWrite(s, out, true);
    var n := |In(s.up, s.cur)|;
    assert In(s'.up, s.cur) == In(s.up, s.cur) + [Ended(out.done)] && s'.down == s.down;
    if DoneInFlight(s, p) {
      var i :| 0 <= i < n && In(s.up, s.cur)[i].Ended? && In(s.up, s.cur)[i].done.path == p;
      assert In(s'.up, s.cur)[i] == In(s.up, s.cur)[i];
    } else if DonePending(s, p) {
      var x :| x in s.sending && x.done.path == p && (x.via.None? || x.via == Some(s.cur));
      assert x in s'.sending || In(s'.up, s.cur)[n].done.path == p;
    }
  }

  // --------------------------------------------------- the scheduler's table

  lemma LostRuns(t: map<PathKey, Entry>, w: WorkerId)
    ensures RunningPaths(LostTable(t, w), w) == {}
  {
  }

  lemma {:induction false} AdoptedRuns(t: map<PathKey, Entry>, w: WorkerId, running: seq<(PathKey, nat)>)
    ensures forall p :: p in RunningPaths(AdoptAll(t, w, running), w) <==>
      p in RunningPaths(t, w) || Reported(running, p)
  {
    if running != [] {
      var n := |running| - 1;
      AdoptedRuns(t, w, running[..n]);
      forall p
        ensures Reported(running, p) <==> Reported(running[..n], p) || running[n].0 == p
      {
        if Reported(running[..n], p) {
          var i :| 0 <= i < n && running[..n][i].0 == p;
          assert running[i].0 == p;
        }
        if i :| 0 <= i < |running| && running[i].0 == p {
          assert i == n || running[..n][i].0 == p;
        }
      }
    }
  }

  lemma EndedRuns(t: map<PathKey, Entry>, p: PathKey, w: WorkerId)
    ensures RunningPaths(EndedTable(t, p, w), w) == RunningPaths(t, w) - {p}
    ensures RunningPaths(GivenBackTable(t, p, w), w) == RunningPaths(t, w) - {p}
  {
  }

  // ------------------------------------------------------- the scheduler's steps

  /** Taking a message off the current session leaves covered all but what a Done was for. */
  lemma DeliveredCovers(s: System, s': System, p: PathKey)
    requires s'.cur == s.cur && s'.expected == s.expected && s'.sending == s.sending && s'.down == s.down
    requires In(s.up, s.cur) != [] && In(s'.up, s.cur) == In(s.up, s.cur)[1..]
    requires Covered(s, p) && !(In(s.up, s.cur)[0].Ended? && In(s.up, s.cur)[0].done.path == p)
    ensures Covered(s', p)
  {
  }

  lemma HelloKeeps(s: System, w: WorkerId)
    requires Inv(s, w) && In(s.up, s.cur) != [] && In(s.up, s.cur)[0].Hello?
    ensures Inv(DoDeliver(s, w, s.cur), w)
  {
    hide AdoptAll, LostTable;
    HelloShape(s, w);
    if !s.broken {
      hide SessionsOk;
      HelloCovers(s, w);
    }
  }

  lemma HelloShape(s: System, w: WorkerId)
    requires SessionsOk(s) && HelloOk(s) && In(s.up, s.cur) != [] && In(s.up, s.cur)[0].Hello?
    ensures SessionsOk(DoDeliver(s, w, s.cur)) && HelloOk(DoDeliver(s, w, s.cur))
  {
    hide AdoptAll, LostTable;
    var s' := DoDeliver(s, w, s.cur);
    assert In(s'.up, s.cur) == In(s.up, s.cur)[1..];
    forall n | n > s.cur
      ensures In(s'.up, n) == []
    {
      assert In(s.up, n) == [];
    }
  }

  lemma HelloCovers(s: System, w: WorkerId)
    requires CoverOk(s, w) && HelloOk(s) && !s.broken && In(s.up, s.cur) != [] && In(s.up, s.cur)[0].Hello?
    ensures CoverOk(DoDeliver(s, w, s.cur), w)
  {
    hide Covered, AdoptAll, LostTable;
    var s', running := DoDeliver(s, w, s.cur), In(s.up, s.cur)[0].running;
    assert In(s'.up, s.cur) == In(s.up, s.cur)[1..];
    LostRuns(s.table, w);
    AdoptedRuns(LostTable(s.table, w), w, running);
    assert AllCovered(s, running);
    forall p | p in RunningPaths(s'.table, w)
      ensures Covered(s', p)
    {
      assert Reported(running, p);
      DeliveredCovers(s, s', p);
    }
  }

  lemma EndedKeeps(s: System, w: WorkerId)
    requires Inv(s, w) && In(s.up, s.cur) != [] && In(s.up, s.cur)[0].Ended?
    ensures Inv(DoDeliver(s, w, s.cur), w)
  {
    var s', done := DoDeliver(s, w, s.cur), In(s.up, s.cur)[0].done;
    hide EndedTable, GivenBackTable;
    assert In(s.up, s.cur) == [Ended(done)] + In(s'.up, s.cur);
    ShapeKept(s, s', [Ended(done)]);
    if !s.broken && s.at == Some(s.cur) {
      hide SessionsOk;
      EndedCovers(s, s', w, done);
    }
  }

  lemma EndedCovers(s: System, s': System, w: WorkerId, done: Done)
    requires HelloOk(s) && CoverOk(s, w) && !s.broken && s.at == Some(s.cur)
    requires In(s.up, s.cur) != [] && In(s.up, s.cur)[0] == Ended(done) && s' == DoDeliver(s, w, s.cur)
    ensures CoverOk(s', w)
  {
    hide Covered, EndedTable, GivenBackTable;
    assert In(s'.up, s.cur) == In(s.up, s.cur)[1..];
    EndedRuns(s.table, done.path, w);
    forall p | p in RunningPaths(s'.table, w)
      ensures Covered(s', p)
    {
      DeliveredCovers(s, s', p);
    }
  }

  /** A change outside the worker and its current session. */
  lemma OutsideKeeps(s: System, s': System, w: WorkerId)
    requires Inv(s, w)
    requires s'.expected == s.expected && s'.sending == s.sending && s'.cur == s.cur && s'.phase == s.phase
    requires In(s'.up, s.cur) == In(s.up, s.cur) && s'.down == s.down
    requires forall n :: n > s.cur ==> In(s'.up, n) == In(s.up, n) && s'.down == s.down
    requires s.broken ==> s'.broken
    requires s'.at.Some? ==> s'.at == s.at || s'.at.value < s.cur
    requires s'.at == Some(s.cur) ==> RunningPaths(s'.table, w) <= RunningPaths(s.table, w)
    ensures Inv(s', w)
  {
    ShapeKept(s, s', []);
    hide SessionsOk, HelloOk;
    assert forall p :: Covered(s, p) ==> Covered(s', p);
    CoverKept(s, s', w);
  }

  /** The scheduler's own state changes, and the session may break. */
  lemma SchedulerKeeps(s: System, w: WorkerId, table: map<PathKey, Entry>, at: Option<Session>, alive: bool,
                       broken: bool)
    requires Inv(s, w) && (s.broken ==> broken)
    requires at.Some? ==> at == s.at || at.value < s.cur
    requires at == Some(s.cur) ==> RunningPaths(table, w) <= RunningPaths(s.table, w)
    ensures Inv(s.(table := table, at := at, alive := alive, broken := broken), w)
  {
    hide Inv, RunningPaths;
    OutsideKeeps(s, s.(table := table, at := at, alive := alive, broken := broken), w);
  }

  /** A message of an older session: it cannot make that session the current one. */
  lemma StaleKeeps(s: System, w: WorkerId, n: Session)
    requires Inv(s, w) && n < s.cur
    ensures Inv(DoDeliver(s, w, n), w)
  {
    if In(s.up, n) != [] {
      hide Heard, Inv, RunningPaths;
      var s1 := s.(up := s.up[n := In(s.up, n)[1..]]);
      OutsideKeeps(s, s1, w);
      StaleHeard(s1, w, n, In(s.up, n)[0]);
    }
  }

  lemma StaleHeard(s: System, w: WorkerId, n: Session, msg: ToSched)
    requires Inv(s, w) && n < s.cur
    ensures Inv(Heard(s, w, n, msg), w)
  {
    hide AdoptAll, LostTable, EndedTable, GivenBackTable, Inv, RunningPaths;
    var s' := Heard(s, w, n, msg);
    SchedulerKeeps(s, w, s'.table, s'.at, s'.alive, s'.broken);
  }

  /** A command on the session that speaks for the worker; an Expect covers its drv. */
  lemma CommandKeeps(s: System, w: WorkerId, cmd: ToWorker)
    requires Inv(s, w) && s.at.Some?
    ensures Inv(s.Commands(s.at.value, cmd), w)
    ensures forall p :: Covered(s, p) ==> Covered(s.Commands(s.at.value, cmd), p)
    ensures cmd.Expect? && cmd.path != "" && s.at == Some(s.cur) ==> Covered(s.Commands(s.at.value, cmd), cmd.path)
  {
    var s' := s.Commands(s.at.value, cmd);
    assert In(s'.up, s.cur) == In(s.up, s.cur);
    assert s.down <= s'.down;
    forall p | Covered(s, p)
      ensures Covered(s', p)
    {
      if ExpectInFlight(s, p) {
        var i :| 0 <= i < |s.down| && s.down[i].Expect? && s.down[i].path == p;
        assert s'.down[i] == s.down[i];
      }
    }
    if s.at == Some(s.cur) {
      assert s'.down[|s.down|] == cmd;
    }
    hide Covered;
    ShapeKept(s, s', []);
    CoverKept(s, s', w);
  }

  lemma PlaceKeeps(s: System, w: WorkerId, p: PathKey, assignId: nat, ok: bool)
    requires Inv(s, w)
    ensures Inv(DoPlace(s, w, p, assignId, ok), w)
  {
    if s.alive && s.at.Some? && p != "" && p in s.table && s.table[p].worker.None? {
      var table := s.table[p := s.table[p].(worker := Some(w), assignId := assignId)];
      if ok {
        CommandKeeps(s, w, Expect(p, assignId));
        hide Covered, Covers;
        var s1 := s.Commands(s.at.value, Expect(p, assignId));
        var s' := DoPlace(s, w, p, assignId, true);
        assert s' == s1.(table := table);
        PlacedKeeps(s1, w, p, table);
      } else {
        LostRuns(table, w);
        SchedulerKeeps(s, w, LostTable(table, w), s.at, false, s.Breaks(s.at.value).broken);
      }
    }
  }

  lemma PlacedKeeps(s: System, w: WorkerId, p: PathKey, table: map<PathKey, Entry>)
    requires Inv(s, w) && RunningPaths(table, w) == RunningPaths(s.table, w) + {p}
    requires s.at == Some(s.cur) ==> Covered(s, p)
    ensures Inv(s.(table := table), w)
  {
    var s' := s.(table := table);
    ShapeKept(s, s', []);
    assert forall q :: Covered(s, q) <==> Covered(s', q);
    hide Covered;
  }

  // ------------------------------------------------------- the session thread

  /** A new session: nothing has to be covered yet. */
  lemma ConnectKeeps(s: System, w: WorkerId)
    requires Inv(s, w) && s.broken
    ensures Inv(s.(cur := s.cur + 1, phase := Connected, down := [], broken := false), w)
  {
  }

  /** The send function was set before the table is copied, so whatever leaves the table
      from here on is announced on this session. */
  lemma SnapshotKeeps(s: System, w: WorkerId, running: seq<(PathKey, nat)>)
    requires Inv(s, w) && s.phase.Connected? && Copies(running, s.expected)
    ensures Inv(s.(phase := Snapshot(running)), w)
  {
  }

  lemma GreetKeeps(s: System, w: WorkerId, ok: bool)
    requires Inv(s, w)
    ensures Inv(DoGreet(s, ok), w)
  {
    if s.phase.Snapshot? {
      GreetShape(s, ok);
      hide SessionsOk, HelloOk;
      if ok && !s.broken {
        GreetCovers(s, w);
      }
    }
  }

  lemma GreetShape(s: System, ok: bool)
    requires SessionsOk(s) && HelloOk(s) && s.phase.Snapshot?
    ensures SessionsOk(DoGreet(s, ok)) && HelloOk(DoGreet(s, ok))
  {
    var s' := DoGreet(s, ok);
    forall n | n > s.cur
      ensures In(s'.up, n) == []
    {
      assert In(s.up, n) == [];
    }
  }

  lemma GreetCovers(s: System, w: WorkerId)
    requires CoverOk(s, w) && HelloOk(s) && s.phase.Snapshot? && !s.broken
    ensures CoverOk(DoGreet(s, true), w)
  {
    var s' := DoGreet(s, true);
    assert In(s'.up, s.cur) == In(s.up, s.cur) + [Hello(s.phase.running)];
    forall p | Covered(s, p)
      ensures Covered(s', p)
    {
      if DoneInFlight(s, p) {
        var i :| 0 <= i < |In(s.up, s.cur)| && In(s.up, s.cur)[i].Ended? && In(s.up, s.cur)[i].done.path == p;
        assert In(s'.up, s.cur)[i] == In(s.up, s.cur)[i];
      }
    }
    hide Covered;
  }

  // ----------------------------------------------------------------- theorems

  lemma RelabelKeeps(s: System, w: WorkerId, expected: Expects)
    requires Inv(s, w) && expected.Keys == s.expected.Keys
    ensures Inv(s.(expected := expected), w)
  {
    var a := Acted(expected, {});
    ActKeeps(s, a, w);
    assert (set d | d in a.dones :: Sending(d, None)) == {};
    assert s.(expected := expected) == s.Act(a);
  }

  lemma StepKeeps(s: System, w: WorkerId, step: Step)
    requires Inv(s, w)
    ensures Inv(Apply(s, w, step), w)
  {
    hide DoGreet, DoReceive, DoRead, DoWrite, DoDeliver, DoPlace, Taken, Leases.Ended, RunningPaths, LostTable;
    match step
    case Connect => if s.broken { ConnectKeeps(s, w); }
    case TakeSnapshot(running) =>
      if s.phase.Connected? && Copies(running, s.expected) { SnapshotKeeps(s, w, running); }
    case Greet(ok) => GreetKeeps(s, w, ok);
    case Receive(draining) => ReceiveKeeps(s, w, draining);
    case Claim(p) =>
      if p in s.expected { RelabelKeeps(s, w, s.expected[p := s.expected[p].(claimed := true)]); }
    case Admit(p) =>
      if p in s.expected { RelabelKeeps(s, w, s.expected[p := s.expected[p].(claimed := true, running := true)]); }
    case Finish(p, givenBack) =>
      EveryLeaseEndsWithDone(s.expected, p, 0, givenBack, {});
      ActKeeps(s, Leases.Ended(s.expected, p, givenBack), w);
    case Take(which) =>
      EveryLeaseEndsWithDone(s.expected, "", 0, false, which);
      ActKeeps(s, Taken(s.expected, which), w);
    case Read(done) => ReadKeeps(s, w, done);
    case Write(out, ok) => WriteKeeps(s, w, out, ok);
    case Break(n) => SchedulerKeeps(s, w, s.table, s.at, s.alive, s.Breaks(n).broken);
    case Deliver(n) => DeliverKeeps(s, w, n);
    case Place(p, assignId, ok) => PlaceKeeps(s, w, p, assignId, ok);
    case Cancel(p) => if s.alive && s.at.Some? { CommandKeeps(s, w, Revoke(p)); }
    case Elsewhere(table) => ElsewhereKeeps(s, w, table);
    case Gone(n) => GoneKeeps(s, w, n);
  }

  lemma DeliverKeeps(s: System, w: WorkerId, n: Session)
    requires Inv(s, w)
    ensures Inv(DoDeliver(s, w, n), w)
  {
    hide CoverOk, HelloOk;
    if In(s.up, n) != [] {
      if n < s.cur {
        StaleKeeps(s, w, n);
      } else if In(s.up, n)[0].Hello? {
        HelloKeeps(s, w);
      } else {
        EndedKeeps(s, w);
      }
    }
  }

  lemma ElsewhereKeeps(s: System, w: WorkerId, table: map<PathKey, Entry>)
    requires Inv(s, w)
    ensures Inv(Apply(s, w, Elsewhere(table)), w)
  {
    if RunningPaths(table, w) <= RunningPaths(s.table, w) {
      SchedulerKeeps(s, w, table, s.at, s.alive, s.broken);
    }
  }

  lemma GoneKeeps(s: System, w: WorkerId, n: Session)
    requires Inv(s, w)
    ensures Inv(Apply(s, w, Gone(n)), w)
  {
    hide CoverOk, HelloOk;
    if s.at == Some(n) {
      SchedulerKeeps(s, w, LostTable(s.table, w), None, false, s.Breaks(n).broken);
    } else {
      SchedulerKeeps(s, w, s.table, s.at, s.alive, s.Breaks(n).broken);
    }
  }

  lemma {:induction false} RunKeeps(s: System, w: WorkerId, steps: seq<Step>)
    requires Inv(s, w)
    ensures Inv(Run(s, w, steps), w)
    decreases |steps|
  {
    hide Inv, Apply;
    if steps != [] {
      StepKeeps(s, w, steps[0]);
      RunKeeps(Apply(s, w, steps[0]), w, steps[1..]);
    }
  }

  /** No slot leaks: in every run, what the scheduler counts as running on the worker over an
      unbroken session is in the worker's table, or its Expect or its Done is on the way. */
  lemma NoSlotLeaks(w: WorkerId, steps: seq<Step>)
    ensures var s := Run(Start(), w, steps);
      s.at.Some? && s.Unbroken(s.at.value) ==> forall p :: p in RunningPaths(s.table, w) ==> Covered(s, p)
  {
    RunKeeps(Start(), w, steps);
  }

  /** With nothing on the way, the scheduler counts only leases the worker holds. */
  lemma SettledAgree(w: WorkerId, steps: seq<Step>)
    ensures var s := Run(Start(), w, steps);
      s.at.Some? && s.Unbroken(s.at.value) && s.sending == multiset{} && In(s.up, s.cur) == [] && s.down == [] ==>
        RunningPaths(s.table, w) <= s.expected.Keys
  {
    var s := Run(Start(), w, steps);
    NoSlotLeaks(w, steps);
    if s.at.Some? && s.Unbroken(s.at.value) && s.sending == multiset{} && In(s.up, s.cur) == [] && s.down == [] {
      forall p | p in RunningPaths(s.table, w)
        ensures p in s.expected
      {
        assert Covered(s, p);
      }
    }
  }

  /** What Elsewhere stands for: no event of a client or of another worker adds to what runs on w. */
  lemma {:induction false} OthersOnlyTake(t: map<PathKey, Entry>, w: WorkerId, v: WorkerId,
                                          running: seq<(PathKey, nat)>)
    requires v != w
    ensures RunningPaths(LostTable(t, v), w) == RunningPaths(t, w)
    ensures RunningPaths(AdoptAll(t, v, running), w) <= RunningPaths(t, w)
    ensures forall p ::
      RunningPaths(EndedTable(t, p, v), w) == RunningPaths(GivenBackTable(t, p, v), w) == RunningPaths(t, w)
    ensures forall p, c, info: WantInfo, now :: info.path == p ==>
      RunningPaths(t[p := Wanted(Lookup(t, p), c, info, now)], w) == RunningPaths(t, w)
  {
    if running != [] {
      OthersOnlyTake(t, w, v, running[..|running| - 1]);
    }
  }

  // -------------------------------------------------- every slot can be freed

  /** Steps of the worker and of the channels alone, where only a leased p is finished. */
  ghost predicate Ordinary(s: System, w: WorkerId, steps: seq<Step>, p: PathKey)
    decreases |steps|
  {
    steps != [] ==>
      && (match steps[0]
          case Finish(q, _) => q == p && p in s.expected
          case Receive(_) => true
          case Read(_) => true
          case Write(_, ok) => ok
          case Deliver(_) => true
          case _ => false)
      && Ordinary(Apply(s, w, steps[0]), w, steps[1..], p)
  }

  ghost predicate Joined(s: System, w: WorkerId) {
    Inv(s, w) && s.at == Some(s.cur) && !s.broken
  }

  ghost predicate Freed(s: System, w: WorkerId, steps: seq<Step>, p: PathKey) {
    Ordinary(s, w, steps, p) && p !in RunningPaths(Run(s, w, steps).table, w)
  }

  lemma FreedBefore(s: System, w: WorkerId, step: Step, steps: seq<Step>, p: PathKey)
    requires Freed(Apply(s, w, step), w, steps, p) && Ordinary(s, w, [step], p)
    ensures Freed(s, w, [step] + steps, p)
  {
  }

  lemma {:induction false} FreeByDeliveries(s: System, w: WorkerId, p: PathKey, i: nat) returns (steps: seq<Step>)
    requires Joined(s, w) && i < |In(s.up, s.cur)| && In(s.up, s.cur)[i].Ended? && In(s.up, s.cur)[i].done.path == p
    ensures Freed(s, w, steps, p)
    decreases i
  {
    var s' := DoDeliver(s, w, s.cur);
    var head := In(s.up, s.cur)[0];
    EndedRuns(s.table, if head.Ended? then head.done.path else p, w);
    DeliverKeeps(s, w, s.cur);
    assert s'.at == s.at && !s'.broken && In(s'.up, s.cur) == In(s.up, s.cur)[1..];
    if i == 0 {
      steps := [];
    } else {
      steps := FreeByDeliveries(s', w, p, i - 1);
    }
    FreedBefore(s, w, Deliver(s.cur), steps, p);
    steps := [Deliver(s.cur)] + steps;
  }

  lemma FreeByWriting(s: System, w: WorkerId, p: PathKey, out: Sending) returns (steps: seq<Step>)
    requires Joined(s, w) && out in s.sending && out.done.path == p && out.via == Some(s.cur)
    ensures Freed(s, w, steps, p)
  {
    var s' := DoWrite(s, out, true);
    WriteKeeps(s, w, out, true);
    assert In(s'.up, s.cur) == In(s.up, s.cur) + [Ended(out.done)];
    hide Freed, Inv;
    steps := FreeByDeliveries(s', w, p, |In(s.up, s.cur)|);
    assert Ordinary(s, w, [Write(out, true)], p);
    FreedBefore(s, w, Write(out, true), steps, p);
    steps := [Write(out, true)] + steps;
  }

  lemma FreeBySending(s: System, w: WorkerId, p: PathKey) returns (steps: seq<Step>)
    requires Joined(s, w) && DonePending(s, p)
    ensures Freed(s, w, steps, p)
  {
    var x :| x in s.sending && x.done.path == p && (x.via.None? || x.via == Some(s.cur));
    if x.via.None? {
      ReadKeeps(s, w, x.done);
      hide Freed, Inv;
      steps := FreeByWriting(DoRead(s, x.done), w, p, Sending(x.done, Some(s.cur)));
      assert Ordinary(s, w, [Read(x.done)], p);
      FreedBefore(s, w, Read(x.done), steps, p);
      steps := [Read(x.done)] + steps;
    } else {
      steps := FreeByWriting(s, w, p, x);
    }
  }

  lemma FreeByFinishing(s: System, w: WorkerId, p: PathKey) returns (steps: seq<Step>)
    requires Joined(s, w) && p in s.expected
    ensures Freed(s, w, steps, p)
  {
    var step := Finish(p, false);
    var s' := Apply(s, w, step);
    StepKeeps(s, w, step);
    var a := Leases.Ended(s.expected, p, false);
    EveryLeaseEndsWithDone(s.expected, p, 0, false, {});
    var d :| d in a.dones && d.path == p;
    assert Sending(d, None) in (set d | d in a.dones :: Sending(d, None));
    assert Sending(d, None) in s'.sending;
    hide Freed, Inv;
    steps := FreeBySending(s', w, p);
    assert Ordinary(s, w, [step], p);
    FreedBefore(s, w, step, steps, p);
    steps := [step] + steps;
  }

  lemma {:induction false} FreeByReceiving(s: System, w: WorkerId, p: PathKey, i: nat) returns (steps: seq<Step>)
    requires Joined(s, w) && p != "" && i < |s.down| && s.down[i].Expect? && s.down[i].path == p
    ensures Freed(s, w, steps, p)
    decreases i
  {
    var s', cmd := DoReceive(s, false), s.down[0];
    ReceiveKeeps(s, w, false);
    assert s'.down == s.down[1..];
    assert Joined(s', w);
    if i == 0 {
      assert p in s'.expected;
      hide Freed, Inv;
      steps := FreeByFinishing(s', w, p);
    } else {
      hide Freed, Inv;
      steps := FreeByReceiving(s', w, p, i - 1);
    }
    assert Ordinary(s, w, [Receive(false)], p);
    FreedBefore(s, w, Receive(false), steps, p);
    steps := [Receive(false)] + steps;
  }

  /** Over an unbroken session every counted slot comes free by the worker finishing the lease
      and the messages arriving: nothing else has to happen. */
  lemma SlotCanBeFreed(w: WorkerId, run: seq<Step>, p: PathKey) returns (steps: seq<Step>)
    requires var s := Run(Start(), w, run); s.at.Some? && s.Unbroken(s.at.value) && p in RunningPaths(s.table, w)
    ensures Freed(Run(Start(), w, run), w, steps, p)
  {
    var s := Run(Start(), w, run);
    RunKeeps(Start(), w, run);
    NoSlotLeaks(w, run);
    if p in s.expected {
      steps := FreeByFinishing(s, w, p);
    } else if DonePending(s, p) {
      steps := FreeBySending(s, w, p);
    } else if DoneInFlight(s, p) {
      var i :| 0 <= i < |In(s.up, s.cur)| && In(s.up, s.cur)[i].Ended? && In(s.up, s.cur)[i].done.path == p;
      steps := FreeByDeliveries(s, w, p, i);
    } else {
      var i :| 0 <= i < |s.down| && s.down[i].Expect? && s.down[i].path == p;
      steps := FreeByReceiving(s, w, p, i);
    }
  }
}
