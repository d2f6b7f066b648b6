/**
 * The executor wired to the Schedule stream (src/client/build.cc, struct Run):
 * what the scheduler believes we follow, against what the jobs say.
 */
module ClientRun {
  import opened Lists
  import opened JobGraph
  import opened Executors

  datatype Event =
    | Finished(job: JobId, succeeded: bool) | Bounced(job: JobId)
    | Assigned(job: JobId, at: Placement) | Cached(job: JobId)
    | Unplaceable(job: JobId, now: int) | Placeable(job: JobId)
    | Reap(now: int, grace: int) | Abandon | Started
  {
    predicate InRange(n: int) {
      Reap? || Abandon? || Started? || 0 <= job < n
    }
  }

  /** What can happen to a run. `depth` is how deep a derivation lies in the graph of derivations,
      which has no cycles; `full` and `writeOk` are as for Flush. */
  datatype Happening =
    | Added(prio: real, ins: seq<JobId>, depth: nat)
    | Applied(event: Event)
    | Flushed(full: nat -> bool, writeOk: nat -> bool)
    | Heard(events: seq<Event>, full: nat -> bool, writeOk: nat -> bool)
    | Attached(full: nat -> bool, writeOk: nat -> bool)
    | Detached
    | Recovered(job: JobId, producer: Producer)
  {
    predicate Flushes() { Flushed? || Heard? || Attached? }

    /** Names only jobs that exist, inputs that are less deep, and no second stream. */
    predicate Makes(depths: seq<nat>, stream: bool) {
      match this
      case Added(_, ins, depth) => forall k :: 0 <= k < |ins| ==> 0 <= ins[k] < |depths| && depths[ins[k]] < depth
      case Applied(event) => event.InRange(|depths|)
      case Flushed(_, _) => true
      case Heard(events, _, _) => forall k :: 0 <= k < |events| ==> events[k].InRange(|depths|)
      case Attached(_, _) => !stream
      case Detached => true
      case Recovered(j, producer) => 0 <= j < |depths| && producer.Below(depths, j)
    }
  }

  /** Who builds an input that was missing: a job of the run, or a derivation that becomes one. */
  datatype Producer = Known(job: JobId) | New(prio: real, depth: nat)
  {
    predicate Below(depths: seq<nat>, j: JobId)
      requires 0 <= j < |depths|
    {
      match this
      case Known(p) => 0 <= p < |depths| && depths[p] < depths[j]
      case New(_, depth) => depth < depths[j]
    }
  }

  datatype Msg = Want(job: JobId) | Cancel(job: JobId)

  /** What a scheduler that received these messages believes we follow. */
  ghost function Believed(msgs: seq<Msg>): set<JobId> {
    if msgs == [] then {}
    else
      var before := Believed(msgs[..|msgs| - 1]);
      match msgs[|msgs| - 1]
      case Want(j) => before + {j}
      case Cancel(j) => before - {j}
  }

  function Cancels(ids: seq<JobId>): seq<Msg> {
    seq(|ids|, i requires 0 <= i < |ids| => Cancel(ids[i]))
  }

  function Wants(ids: seq<JobId>): seq<Msg> {
    seq(|ids|, i requires 0 <= i < |ids| => Want(ids[i]))
  }

  lemma {:induction false} BelievedWants(msgs: seq<Msg>, ids: seq<JobId>)
    ensures Believed(msgs + Wants(ids)) == Believed(msgs) + IdSet(ids)
  {
    if ids == [] {
      assert msgs + Wants(ids) == msgs;
    } else {
      var n := |ids| - 1;
      BelievedWants(msgs, ids[..n]);
      assert (msgs + Wants(ids))[..|msgs| + n] == msgs + Wants(ids[..n]);
      assert ids == ids[..n] + [ids[n]];
    }
  }

  lemma {:induction false} BelievedCancels(msgs: seq<Msg>, ids: seq<JobId>)
    ensures Believed(msgs + Cancels(ids)) == Believed(msgs) - IdSet(ids)
  {
    if ids == [] {
      assert msgs + Cancels(ids) == msgs;
    } else {
      var n := |ids| - 1;
      BelievedCancels(msgs, ids[..n]);
      assert (msgs + Cancels(ids))[..|msgs| + n] == msgs + Cancels(ids[..n]);
      assert ids == ids[..n] + [ids[n]];
    }
  }

  /** An event that unfollows only with a Cancel queued keeps belief and queued cancels in step. */
  lemma BeliefKept(msgs: seq<Msg>, jobs0: seq<Job>, cancels0: seq<JobId>, jobs: seq<Job>, cancels: seq<JobId>)
    requires Believed(msgs) - IdSet(cancels0) == Followed(jobs0)
    requires FollowStep(jobs0, cancels0, jobs, cancels)
    ensures Believed(msgs) - IdSet(cancels) == Followed(jobs)
  {
  }

  lemma FollowedAfterWants(jobs0: seq<Job>, jobs: seq<Job>, wants: seq<JobId>)
    requires |jobs| == |jobs0| && InRange(jobs, wants)
    requires forall j :: 0 <= j < |jobs| ==> jobs[j] == if j in wants then Followed1(jobs0[j]) else jobs0[j]
    ensures Followed(jobs) == Followed(jobs0) + IdSet(wants)
  {
  }

  class Run {
    const exe: Executor
    var stream: bool               // we hold a stream to write to
    var closed: bool               // WritesDone sent
    var depths: seq<nat>           // of the jobs' derivations
    ghost var sent: seq<Msg>       // what the current stream took
    ghost var last: seq<Msg>       // the same, when it was half-closed

    /** What every event keeps: on a live stream, the scheduler's belief once the queued cancels
        went out is what the jobs say. */
    ghost predicate Valid()
      reads this, exe
    {
      && exe.Valid() && stream == exe.stream && InStep()
      && |depths| == |exe.jobs| && Acyclic(exe.inputs, depths)
    }

    ghost predicate InStep()
      reads this, exe
    {
      stream ==> Believed(sent) - IdSet(exe.cancels) == Followed(exe.jobs)
    }

    /** On a half-closed stream nothing is left to say, and nothing was said since. */
    ghost predicate Silent()
      reads this, exe
    {
      closed && stream ==> exe.remaining == 0 && exe.cancels == [] && sent == last
    }

    constructor (threads: nat, rescheduleRetries: nat, keepGoing: bool)
      ensures Valid() && Silent() && !stream && fresh(exe) && exe.jobs == []
    {
      exe := new Executor(threads, rescheduleRetries, keepGoing);
      stream, closed, depths := false, false, [];
      sent, last := [], [];
    }

    /** One write of a batch. `ids` are the jobs whose Wants are in it. */
    method Write(batch: seq<Msg>, ids: seq<JobId>, writeOk: bool)
      requires exe.Valid() && stream == exe.stream && exe.cancels == [] && InRange(exe.jobs, ids)
      modifies this`stream, this`sent, exe
      ensures exe.Valid() && stream == exe.stream && exe.cancels == [] && |exe.jobs| == |old(exe.jobs)|
      ensures stream == (old(stream) && (batch == [] || writeOk)) && exe.inputs == old(exe.inputs)
      ensures stream ==> sent == old(sent) + batch && exe.jobs == old(exe.jobs) && exe.remaining == old(exe.remaining)
      ensures !stream ==> Followed(exe.jobs) == {}
    {
      hide GraphOk, BooksOk, Total;
      if stream && batch != [] && !writeOk {
        stream := false;
        exe.Disconnected();
      }
      if !stream {
        exe.Unsent(ids);
        exe.NotFollowed();
      } else {
        sent := sent + batch;
      }
    }

    /** Sends queued cancels, then wants, in batches. `full` says when a batch is sent early,
        `writeOk` which writes succeed. */
    method Flush(full: nat -> bool, writeOk: nat -> bool) returns (cancels: seq<JobId>, wants: seq<JobId>)
      requires exe.Greeting() && stream == exe.stream && InStep()
      modifies this`stream, this`closed, this`sent, this`last, exe
      ensures exe.Valid() && stream == exe.stream && InStep() && (old(Silent()) ==> Silent())
      ensures exe.cancels == [] && cancels == old(exe.cancels) && NoDup(cancels)
      ensures exe.inputs == old(exe.inputs) && |exe.jobs| == |old(exe.jobs)|
      ensures stream ==> Believed(sent) == Followed(exe.jobs) && sent == old(sent) + Cancels(cancels) + Wants(wants)
      ensures stream ==> old(stream) && old(exe.rewant) <= wants
      ensures stream ==> forall j :: 0 <= j < |exe.jobs| ==>
        exe.jobs[j] == if j in wants then Followed1(old(exe.jobs)[j]) else old(exe.jobs)[j]
      ensures closed && !old(closed) ==> stream && exe.remaining == 0 && Believed(sent) == {}
      ensures old(closed && stream && Silent()) ==> stream && sent == old(sent)
    {
      hide GraphOk, BooksOk, Total, Executor.Valid, Executor.Greeting, Believed;
      if closed && stream && exe.remaining == 0 {
        exe.NothingToWant();
      }
      ghost var ended := closed && stream && exe.remaining == 0 && exe.cancels == [];
      cancels := exe.TakeCancels();
      ghost var jobs0 := exe.jobs;
      wants := exe.TakeWants();
      FollowedAfterWants(jobs0, exe.jobs, wants);
      if ended {
        NothingWanted(jobs0, wants);
        assert Cancels(cancels) == [] && Wants(wants) == [];
        exe.StaysEnded(jobs0);
      }
      Send(cancels, wants, full, writeOk);
      BelievedCancels(old(sent), cancels);
      BelievedWants(old(sent) + Cancels(cancels), wants);
      if exe.remaining == 0 && stream && !closed {
        exe.NotFollowed();
        closed, last := true, sent;
      }
    }

    method Send(cancels: seq<JobId>, wants: seq<JobId>, full: nat -> bool, writeOk: nat -> bool)
      requires exe.Valid() && stream == exe.stream && exe.cancels == [] && InRange(exe.jobs, wants)
      modifies this`stream, this`sent, exe
      ensures exe.Valid() && stream == exe.stream && exe.cancels == [] && (stream ==> old(stream))
      ensures exe.inputs == old(exe.inputs) && |exe.jobs| == |old(exe.jobs)|
      ensures stream ==> sent == old(sent) + Cancels(cancels) + Wants(wants) && exe.jobs == old(exe.jobs)
      ensures stream ==> exe.remaining == old(exe.remaining)
      ensures cancels == [] && wants == [] ==> stream == old(stream)
    {
      hide GraphOk, BooksOk, Total, Executor.Valid;
      var batch, ids, writes, k := Cancels(cancels), [], 0, 0;
      assert old(sent) + Cancels(cancels) + Wants(wants[..0]) == old(sent) + Cancels(cancels);
      while k < |wants|
        invariant 0 <= k <= |wants|
        invariant exe.Valid() && stream == exe.stream && exe.cancels == [] && |exe.jobs| == |old(exe.jobs)|
        invariant InRange(exe.jobs, ids) && (stream ==> old(stream)) && exe.inputs == old(exe.inputs)
        invariant (stream ==> exe.remaining == old(exe.remaining)) && (wants == [] ==> batch == Cancels(cancels))
        invariant wants == [] ==> stream == old(stream)
        invariant stream ==>
          sent + batch == old(sent) + Cancels(cancels) + Wants(wants[..k]) && exe.jobs == old(exe.jobs)
      {
        assert Wants(wants[..k + 1]) == Wants(wants[..k]) + [Want(wants[k])];
        assert sent + (batch + [Want(wants[k])]) == sent + batch + [Want(wants[k])];
        batch := batch + [Want(wants[k])];
        ids := ids + [wants[k]];
        if full(k) {
          Write(batch, ids, writeOk(writes));
          batch, ids, writes := [], [], writes + 1;
        }
        k := k + 1;
      }
      Write(batch, ids, writeOk(writes));
      assert wants[..k] == wants;
    }

    // -------------------------------------------------------------- events

    /** A derivation of the request. */
    method AddJob(prio: real, ins: seq<JobId>, depth: nat)
      requires Valid() && forall k :: 0 <= k < |ins| ==> 0 <= ins[k] < |depths| && depths[ins[k]] < depth
      modifies this`depths, exe
      ensures Valid() && exe.inputs == old(exe.inputs) + [ins] && depths == old(depths) + [depth]
    {
      hide GraphOk, BooksOk, Total, Believed, FollowStep, Caused, Executor.Valid, Acyclic;
      AcyclicLength(exe.inputs, depths);
      AcyclicAdd(exe.inputs, depths, ins, depth);
      var j := exe.Add(prio, ins);
      depths := depths + [depth];
      if stream {
        BeliefKept(sent, old(exe.jobs), old(exe.cancels), exe.jobs, exe.cancels);
      }
    }

    /** A new Schedule stream. */
    method Attach(full: nat -> bool, writeOk: nat -> bool)
      requires Valid() && !stream
      modifies this`stream, this`closed, this`sent, this`last, exe
      ensures Valid() && Silent() && exe.cancels == []
      ensures stream ==> Believed(sent) == Followed(exe.jobs)
      ensures stream ==> forall j :: 0 <= j < |exe.jobs| && exe.jobs[j].state.Active() ==> j in Believed(sent)
    {
      hide GraphOk, BooksOk, Total, Believed, Acyclic;
      stream, closed, sent := true, false, [];
      exe.Connected();
      NothingBelieved();
      var cancels, wants := Flush(full, writeOk);
    }

    /** The stream ended. */
    method Detach() returns (left: int)
      requires Valid()
      modifies this`stream, exe
      ensures Valid() && Silent() && !stream && left == exe.remaining
    {
      hide GraphOk, BooksOk, Total, Acyclic;
      stream := false;
      exe.Disconnected();
      left := exe.remaining;
    }

    /** Scheduler answers or a build thread's report, and the flush after them. */
    method Handle(events: seq<Event>, full: nat -> bool, writeOk: nat -> bool)
      requires Valid() && forall k :: 0 <= k < |events| ==> events[k].InRange(|depths|)
      modifies this`stream, this`closed, this`sent, this`last, exe
      ensures Valid() && (old(Silent()) ==> Silent()) && exe.cancels == []
      ensures stream ==> Believed(sent) == Followed(exe.jobs)
      ensures closed && !old(closed) ==> stream && exe.remaining == 0 && Believed(sent) == {}
    {
      hide GraphOk, BooksOk, Total, Believed, Acyclic, Executor.Valid;
      for k := 0 to |events|
        invariant Valid() && (old(Silent()) ==> Silent())
        invariant closed == old(closed)
      {
        Apply(events[k]);
      }
      FlushAll(full, writeOk);
    }

    /** A flush on its own. */
    method FlushAll(full: nat -> bool, writeOk: nat -> bool)
      requires Valid()
      modifies this`stream, this`closed, this`sent, this`last, exe
      ensures Valid() && (old(Silent()) ==> Silent()) && exe.cancels == []
      ensures stream ==> Believed(sent) == Followed(exe.jobs)
      ensures closed && !old(closed) ==> stream && exe.remaining == 0 && Believed(sent) == {}
    {
      hide GraphOk, BooksOk, Total, Believed, Acyclic, Executor.Valid;
      exe.ValidIsGreeting();
      var cancels, wants := Flush(full, writeOk);
    }

    method Apply(event: Event)
      requires Valid() && event.InRange(|depths|)
      modifies exe
      ensures Valid() && (old(Silent()) ==> Silent())
    {
      hide GraphOk, BooksOk, Total, Believed, FollowStep, Settled, Caused, Acyclic, Executor.Valid;
      ghost var ended := closed && stream && Silent();
      if ended {
        exe.EndedNow();
      }
      ApplyTo(event);
      if stream {
        BeliefKept(sent, old(exe.jobs), old(exe.cancels), exe.jobs, exe.cancels);
      }
      if ended {
        exe.StaysEnded(old(exe.jobs));
        NothingCancelled(old(exe.jobs), old(exe.cancels), exe.jobs, exe.cancels);
      }
    }

    /** A worker lacked an input that another derivation builds: that becomes a job, unless it
        is one, and the build waits for it. The flush follows later. */
    method Recover(j: JobId, producer: Producer) returns (input: JobId)
      requires Valid() && 0 <= j < |depths| && producer.Below(depths, j)
      modifies this`depths, exe
      ensures Valid() && |exe.jobs| == |old(exe.jobs)| + (if producer.Known? then 0 else 1)
      ensures old(Silent() && exe.jobs[j].state.Running?) ==> Silent()
      ensures input == if producer.Known? then producer.job else |old(exe.jobs)|
      ensures !old(exe.jobs)[j].state.Running? && producer.Known? ==> exe.jobs == old(exe.jobs)
      ensures old(exe.jobs)[j].state.Running? ==>
        && |exe.inputs| == |exe.jobs| && input in exe.inputs[j]
        && if producer.Known? && old(exe.jobs)[input].state.Done?
           then exe.jobs[j].state == Unblocked(Failed(old(exe.jobs)[input]), old(exe.stopping), exe.abandoned)
           else if producer.New? && (old(exe.stopping) || exe.abandoned)
           then exe.jobs[j].state == JobState.Done(DependencyFailed, false)
           else exe.jobs[j].state == Blocked(1) && !exe.jobs[j].followed && j in exe.jobs[input].dependants
      ensures producer.New? && !old(exe.stopping) && !exe.abandoned ==> exe.jobs[input].state.Wantable?
    {
      hide GraphOk, BooksOk, Total, Believed, FollowStep, Settled, Caused, OthersLater, Acyclic, Executor.Valid;
      if closed && stream && Silent() {
        exe.EndedNow();
      }
      AcyclicLength(exe.inputs, depths);
      if producer.Known? {
        input := producer.job;
      } else {
        NoInputs(exe.jobs);
        input := exe.Add(producer.prio, []);
        AcyclicAdd(old(exe.inputs), depths, [], producer.depth);
        depths := depths + [producer.depth];
      }
      ghost var jobs1, cancels1 := exe.jobs, exe.cancels;
      AcyclicInput(exe.inputs, depths, j, input);
      exe.BlockOn(j, input);
      if stream {
        if producer.New? {
          BeliefKept(sent, old(exe.jobs), old(exe.cancels), jobs1, cancels1);
        }
        BeliefKept(sent, jobs1, cancels1, exe.jobs, exe.cancels);
      }
    }

    // -------------------------------------------------------------- runs

    /** Not a new job on a half-closed stream, nor a recovery for a build that does not run. */
    predicate Orderly(happening: Happening)
      reads this, exe
    {
      match happening
      case Added(_, _, _) => !closed || !stream
      case Recovered(j, _) => 0 <= j < |exe.jobs| && exe.jobs[j].state.Running?
      case _ => true
    }

    method Step(happening: Happening)
      requires Valid() && happening.Makes(depths, stream)
      modifies this, exe
      ensures Valid() && (old(Silent() && Orderly(happening)) ==> Silent())
      ensures stream && happening.Flushes() ==> Believed(sent) == Followed(exe.jobs)
    {
      hide GraphOk, BooksOk, Total, Believed, FollowStep, Executor.Valid, Caused, Acyclic;
      match happening {
        case Added(prio, ins, depth) => AddJob(prio, ins, depth);
        case Applied(event) => Apply(event);
        case Flushed(full, writeOk) => FlushAll(full, writeOk);
        case Heard(events, full, writeOk) => Handle(events, full, writeOk);
        case Attached(full, writeOk) => Attach(full, writeOk);
        case Detached => var _ := Detach();
        case Recovered(j, producer) => var _ := Recover(j, producer);
      }
    }

    /** Whatever happens in whatever order: the run stays valid and cannot wait for itself, after a
        flush the scheduler believes exactly what the jobs say, and nothing is said on a half-closed
        stream. */
    method Drive(happenings: seq<Happening>) returns (flushed: bool, orderly: bool)
      requires Valid()
      modifies this, exe
      ensures Valid() && (flushed && stream ==> Believed(sent) == Followed(exe.jobs))
      ensures old(Silent()) && orderly ==> Silent()
      ensures happenings != [] && happenings[|happenings| - 1].Flushed? ==> flushed
      ensures exe.remaining > 0 ==> CanGoOn(exe.jobs)
      ensures exe.abandoned && NonePlaced(exe.jobs) ==> exe.remaining == 0
    {
      hide Executor.Valid, Believed, Acyclic, CanGoOn;
      flushed, orderly := false, true;
      for i := 0 to |happenings|
        invariant Valid() && (flushed && stream ==> Believed(sent) == Followed(exe.jobs))
        invariant old(Silent()) && orderly ==> Silent()
        invariant i > 0 && happenings[i - 1].Flushed? ==> flushed
      {
        if happenings[i].Makes(depths, stream) {
          orderly := orderly && Orderly(happenings[i]);
          Step(happenings[i]);
          flushed := happenings[i].Flushes();
        }
      }
      GoesOn();
    }

    /** While jobs remain one can go on; after abandoning them, all have ended once none is placed. */
    lemma GoesOn()
      requires Valid()
      ensures exe.remaining > 0 ==> CanGoOn(exe.jobs)
      ensures exe.abandoned && NonePlaced(exe.jobs) ==> exe.remaining == 0
    {
      hide GraphOk, BooksOk, Total;
      if exe.remaining > 0 {
        var j := exe.SomethingToDo(depths);
      }
      if exe.abandoned && NonePlaced(exe.jobs) {
        exe.AbandonedEnds(depths);
      }
    }

    method ApplyTo(event: Event)
      requires exe.Valid() && event.InRange(|exe.jobs|)
      modifies exe
      ensures exe.Valid() && exe.inputs == old(exe.inputs) && exe.stream == old(exe.stream)
      ensures FollowStep(old(exe.jobs), old(exe.cancels), exe.jobs, exe.cancels)
      ensures DoneStays(old(exe.jobs), exe.jobs)
    {
      hide GraphOk, BooksOk, Total, FollowStep, Caused, Executor.Valid;
      match event {
        case Finished(j, succeeded) => exe.Finished(j, succeeded);
        case Bounced(j) => exe.Bounced(j);
        case Assigned(j, at) => exe.OnAssigned(j, at);
        case Cached(j) => exe.OnCached(j);
        case Unplaceable(j, now) => var _ := exe.OnUnplaceable(j, now);
        case Placeable(j) => exe.OnPlaceable(j);
        case Reap(now, grace) => var _ := exe.Reap(now, grace);
        case Abandon => exe.Abandon();
        case Started => var _ := exe.Next();
      }
    }
  }

  ghost predicate CanGoOn(jobs: seq<Job>) {
    exists j :: 0 <= j < |jobs| && !jobs[j].state.Done? && !jobs[j].state.Blocked?
  }

  ghost predicate NonePlaced(jobs: seq<Job>) {
    forall j :: 0 <= j < |jobs| ==> !jobs[j].state.Placed()
  }

  lemma AcyclicLength(inputs: seq<seq<JobId>>, order: seq<nat>)
    requires Acyclic(inputs, order)
    ensures |order| == |inputs|
  {
  }

  ghost function First(ids: seq<JobId>): (first: JobId)
    ensures ids != [] ==> first in ids
  {
    if ids == [] then -1 else ids[0]
  }

  lemma NothingWanted(jobs: seq<Job>, wants: seq<JobId>)
    requires forall j :: 0 <= j < |jobs| ==> jobs[j].state.Done?
    requires forall k :: 0 <= k < |wants| ==> 0 <= wants[k] < |jobs| && jobs[wants[k]].state.Wantable?
    ensures wants == []
  {
    var first := First(wants);
  }

  lemma NothingCancelled(jobs0: seq<Job>, cancels0: seq<JobId>, jobs: seq<Job>, cancels: seq<JobId>)
    requires Followed(jobs0) == {} && cancels0 == [] && FollowStep(jobs0, cancels0, jobs, cancels)
    ensures cancels == []
  {
    assert First(cancels) !in IdSet(cancels0) + (Followed(jobs0) - Followed(jobs));
  }

  lemma NothingBelieved()
    ensures Believed([]) == {}
  {
  }
}
