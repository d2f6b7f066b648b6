/** The client's jobs (src/client/executor.hh) and what ties their states to the input graph. */
module JobGraph {
  import opened Lists

  type JobId = int

  datatype Placement = Placement(addr: string, assignId: nat, system: string)

  datatype Outcome = Built | FromCache | DependencyFailed | Lost | Unplaceable | GaveUp | Cancelled

  datatype JobState =
    | Blocked(waiting: int)   // inputs not done
    | Wantable
    | Wanted(unplaceableSince: Option<int>)
    | Assigned(at: Placement)
    | Running(at: Placement, redirect: Option<Placement>)
    | Done(outcome: Outcome, succeeded: bool)
  {
    predicate Active() { Wanted? || Assigned? || Running? }
    predicate Placed() { Assigned? || Running? }
    predicate Offerable() { Wantable? || Wanted? }
  }

  datatype Job = Job(
    state: JobState,
    prio: real,
    dependants: seq<JobId>,
    failedInput: Option<JobId>,
    bounced: nat,
    followed: bool)

  // -------------------------------------------------------------- counting

  datatype Measure = ActiveJobs | OpenJobs | EdgesTo(job: JobId)

  /** What one job adds to a count; an edge counts until its source is done. */
  ghost function Weight(m: Measure, job: Job): nat {
    match m
    case ActiveJobs => if job.state.Active() then 1 else 0
    case OpenJobs => if job.state.Done? then 0 else 1
    case EdgesTo(j) => if job.state.Done? then 0 else multiset(job.dependants)[j]
  }

  ghost function Total(m: Measure, jobs: seq<Job>): nat {
    if jobs == [] then 0 else Total(m, jobs[..|jobs| - 1]) + Weight(m, jobs[|jobs| - 1])
  }

  lemma {:induction false} TotalUpdate(m: Measure, jobs: seq<Job>, i: JobId, job: Job)
    requires 0 <= i < |jobs|
    ensures Total(m, jobs[i := job]) == Total(m, jobs) - Weight(m, jobs[i]) + Weight(m, job)
    ensures Weight(m, jobs[i]) <= Total(m, jobs)
  {
    var n := |jobs| - 1;
    if i == n {
      assert jobs[i := job][..n] == jobs[..n];
    } else {
      assert jobs[i := job][..n] == jobs[..n][i := job];
      TotalUpdate(m, jobs[..n], i, job);
    }
  }

  lemma TotalAppend(m: Measure, jobs: seq<Job>, job: Job)
    ensures Total(m, jobs + [job]) == Total(m, jobs) + Weight(m, job)
  {
  }

  lemma {:induction false} TotalSource(m: Measure, jobs: seq<Job>) returns (i: JobId)
    requires Total(m, jobs) > 0
    ensures 0 <= i < |jobs| && Weight(m, jobs[i]) > 0
  {
    var n := |jobs| - 1;
    if Weight(m, jobs[n]) > 0 {
      i := n;
    } else {
      i := TotalSource(m, jobs[..n]);
    }
  }

  // ------------------------------------------------------------ agreement

  ghost predicate InRange(jobs: seq<Job>, ids: seq<JobId>) {
    forall k :: 0 <= k < |ids| ==> 0 <= ids[k] < |jobs|
  }

  ghost predicate EdgesOk(jobs: seq<Job>, inputs: seq<seq<JobId>>) {
    && |inputs| == |jobs|
    && (forall i :: 0 <= i < |jobs| ==> InRange(jobs, jobs[i].dependants) && InRange(jobs, inputs[i]))
    && (forall i, j :: 0 <= i < |jobs| && j in jobs[i].dependants ==> 0 <= j < |jobs| && i in inputs[j])
  }

  /** How many inputs a job still waits for: its edges from jobs that are not done, plus those
      of a job just done that are still to be released (`owed`). */
  ghost predicate WaitOk(jobs: seq<Job>, owed: seq<JobId>, j: JobId) {
    0 <= j < |jobs| ==>
      match jobs[j].state
      case Blocked(waiting) => waiting == Total(EdgesTo(j), jobs) + multiset(owed)[j]
      case Done(_, _) => true
      case _ => Total(EdgesTo(j), jobs) + multiset(owed)[j] == 0
  }

  ghost predicate WaitsOk(jobs: seq<Job>, owed: seq<JobId>) {
    forall j :: 0 <= j < |jobs| ==> WaitOk(jobs, owed, j)
  }

  predicate Succeeded(job: Job) { job.state.Done? && job.state.succeeded }
  predicate Failed(job: Job) { job.state.Done? && !job.state.succeeded }

  /** Input i of job j: succeeded, or failed and noted, or an edge is still to be released. */
  ghost predicate InputOk(jobs: seq<Job>, done: JobId, owed: seq<JobId>, i: JobId, j: JobId)
    requires 0 <= i < |jobs| && 0 <= j < |jobs|
  {
    || Succeeded(jobs[i])
    || (jobs[j].state.Blocked? && Failed(jobs[i]) && jobs[j].failedInput.Some?)
    || (jobs[j].state.Blocked? && !jobs[i].state.Done? && j in jobs[i].dependants)
    || (jobs[j].state.Blocked? && i == done && j in owed)
  }

  /** Only jobs whose inputs all succeeded are Wantable, Wanted or placed. */
  ghost predicate InputsOk(jobs: seq<Job>, inputs: seq<seq<JobId>>, done: JobId, owed: seq<JobId>)
    requires EdgesOk(jobs, inputs)
  {
    && (forall j, i :: 0 <= j < |jobs| && !jobs[j].state.Done? && i in inputs[j] ==> InputOk(jobs, done, owed, i, j))
    && (forall j :: 0 <= j < |jobs| && jobs[j].failedInput.Some? ==> FailedInputOk(jobs, inputs, j))
  }

  /** The input named as failed did fail, and the job never got to run after it did. */
  ghost predicate FailedInputOk(jobs: seq<Job>, inputs: seq<seq<JobId>>, j: JobId)
    requires EdgesOk(jobs, inputs) && 0 <= j < |jobs| && jobs[j].failedInput.Some?
  {
    var i := jobs[j].failedInput.value;
    (jobs[j].state.Blocked? || jobs[j].state.Done?) && i in inputs[j] && Failed(jobs[i])
  }

  /** We follow only what the scheduler may still place for us, or what is about to be settled. */
  ghost predicate FollowsOk(jobs: seq<Job>) {
    forall j :: 0 <= j < |jobs| && jobs[j].followed ==>
      jobs[j].state.Wantable? || jobs[j].state.Active() || jobs[j].state == Blocked(0)
  }

  /** A Blocked job with nothing left to wait for is about to be settled. */
  ghost predicate ParkedOk(jobs: seq<Job>, parked: set<JobId>) {
    forall j :: 0 <= j < |jobs| && jobs[j].state.Blocked? && jobs[j].state.waiting == 0 ==> j in parked
  }

  ghost predicate NoneOfferable(jobs: seq<Job>, parked: set<JobId>) {
    forall j :: 0 <= j < |jobs| && jobs[j].state.Offerable() ==> j in parked
  }

  /** Wantable jobs are in the list wants are taken from, assigned ones in the list threads take from. */
  ghost predicate ListsOk(jobs: seq<Job>, wantable: seq<JobId>, ready: seq<JobId>) {
    && NoDup(wantable)
    && (forall j :: j in wantable ==> 0 <= j < |jobs| && (jobs[j].state.Wantable? || jobs[j].state.Done?))
    && (forall j :: 0 <= j < |jobs| && jobs[j].state.Wantable? ==> j in wantable)
    && InRange(jobs, ready)
    && (forall j :: 0 <= j < |jobs| && jobs[j].state.Assigned? ==> j in ready)
  }

  // -------------------------------------------------------------- progress

  /** An order in which inputs come before what waits for them. */
  ghost predicate Acyclic(inputs: seq<seq<JobId>>, order: seq<nat>) {
    |order| == |inputs| && forall i, j :: IsInput(inputs, i, j) ==> 0 <= i < |inputs| && order[i] < order[j]
  }

  ghost predicate IsInput(inputs: seq<seq<JobId>>, i: JobId, j: JobId) {
    0 <= j < |inputs| && i in inputs[j]
  }

  /** With acyclic inputs some unfinished job is not blocked. */
  lemma {:induction false} SomeUnblocked(jobs: seq<Job>, inputs: seq<seq<JobId>>, order: seq<nat>, j: JobId)
    returns (k: JobId)
    requires EdgesOk(jobs, inputs) && Acyclic(inputs, order) && WaitsOk(jobs, []) && ParkedOk(jobs, {})
    requires 0 <= j < |jobs| && !jobs[j].state.Done?
    ensures 0 <= k < |jobs| && !jobs[k].state.Done? && !jobs[k].state.Blocked?
    decreases order[j]
  {
    if !jobs[j].state.Blocked? {
      return j;
    }
    assert WaitOk(jobs, [], j);
    var i := TotalSource(EdgesTo(j), jobs);
    assert IsInput(inputs, i, j);
    k := SomeUnblocked(jobs, inputs, order, i);
  }

  /** A new job deeper than its inputs keeps the order. */
  lemma AcyclicAdd(inputs: seq<seq<JobId>>, order: seq<nat>, ins: seq<JobId>, depth: nat)
    requires Acyclic(inputs, order)
    requires forall k :: 0 <= k < |ins| ==> 0 <= ins[k] < |inputs| && order[ins[k]] < depth
    ensures Acyclic(inputs + [ins], order + [depth])
  {
    forall i, j | IsInput(inputs + [ins], i, j)
      ensures 0 <= i < |inputs| && (order + [depth])[i] < (order + [depth])[j]
    {
      assert j < |inputs| ==> IsInput(inputs, i, j);
    }
  }

  /** And so does one more input that is less deep. */
  lemma AcyclicInput(inputs: seq<seq<JobId>>, order: seq<nat>, j: JobId, input: JobId)
    requires Acyclic(inputs, order) && 0 <= j < |inputs| && 0 <= input < |inputs| && order[input] < order[j]
    ensures Acyclic(inputs[j := inputs[j] + [input]], order)
  {
    var inputs' := inputs[j := inputs[j] + [input]];
    forall i, k | IsInput(inputs', i, k)
      ensures 0 <= i < |inputs'| && order[i] < order[k]
    {
      assert IsInput(inputs, i, k) || (i == input && k == j);
    }
  }

  // ----------------------------------------------------------- one change

  /** Moving a job between unfinished states changes nobody's edges. */
  lemma SameEdges(jobs: seq<Job>, j: JobId, job: Job, k: JobId)
    requires 0 <= j < |jobs| && job.dependants == jobs[j].dependants && job.state.Done? == jobs[j].state.Done?
    ensures Total(EdgesTo(k), jobs[j := job]) == Total(EdgesTo(k), jobs)
  {
    TotalUpdate(EdgesTo(k), jobs, j, job);
  }

  lemma EdgesKept(jobs: seq<Job>, inputs: seq<seq<JobId>>, j: JobId, job: Job)
    requires EdgesOk(jobs, inputs) && 0 <= j < |jobs| && job.dependants == jobs[j].dependants
    ensures EdgesOk(jobs[j := job], inputs)
  {
  }

  /** A job that waits for nothing moves to another state in which it waits for nothing. */
  lemma MoveOk(jobs: seq<Job>, inputs: seq<seq<JobId>>, j: JobId, job: Job)
    requires EdgesOk(jobs, inputs) && WaitsOk(jobs, []) && InputsOk(jobs, inputs, -1, [])
    requires 0 <= j < |jobs| && !jobs[j].state.Done? && !job.state.Done? && job.dependants == jobs[j].dependants
    requires jobs[j].state.Blocked? ==> jobs[j].state.waiting == 0 && jobs[j].failedInput.None?
    requires job.state.Blocked? ==> job.state.waiting == 0
    requires job.failedInput == jobs[j].failedInput
    ensures EdgesOk(jobs[j := job], inputs)
    ensures WaitsOk(jobs[j := job], []) && InputsOk(jobs[j := job], inputs, -1, [])
  {
    EdgesKept(jobs, inputs, j, job);
    var after := jobs[j := job];
    assert WaitOk(jobs, [], j);
    forall k | 0 <= k < |after|
      ensures WaitOk(after, [], k)
    {
      SameEdges(jobs, j, job, k);
      assert WaitOk(jobs, [], k);
    }
    InputsDone(jobs, inputs, j, -1, []);
  }

  /** A job that waits for no edge has inputs that are all done. */
  lemma InputsDone(jobs: seq<Job>, inputs: seq<seq<JobId>>, j: JobId, done: JobId, owed: seq<JobId>)
    requires EdgesOk(jobs, inputs) && InputsOk(jobs, inputs, done, owed)
    requires 0 <= j < |jobs| && !jobs[j].state.Done? && Total(EdgesTo(j), jobs) == 0 && j !in owed
    requires jobs[j].failedInput.None?
    ensures forall i :: i in inputs[j] ==> Succeeded(jobs[i])
  {
    hide Total;
    forall i | i in inputs[j]
      ensures Succeeded(jobs[i])
    {
      assert InputOk(jobs, done, owed, i, j);
      hide InputsOk, EdgesOk;
      InputDone(jobs, done, owed, i, j);
    }
  }

  lemma InputDone(jobs: seq<Job>, done: JobId, owed: seq<JobId>, i: JobId, j: JobId)
    requires 0 <= i < |jobs| && 0 <= j < |jobs| && InputOk(jobs, done, owed, i, j)
    requires Total(EdgesTo(j), jobs) == 0 && j !in owed && jobs[j].failedInput.None?
    ensures Succeeded(jobs[i])
  {
    TotalUpdate(EdgesTo(j), jobs, i, jobs[i]);
  }

  /** A job is done: its edges are now owed to its dependants. */
  lemma FinishOk(jobs: seq<Job>, inputs: seq<seq<JobId>>, j: JobId, job: Job)
    requires EdgesOk(jobs, inputs) && WaitsOk(jobs, []) && InputsOk(jobs, inputs, -1, [])
    requires 0 <= j < |jobs| && !jobs[j].state.Done? && job.state.Done?
    requires job.dependants == jobs[j].dependants && job.failedInput == jobs[j].failedInput
    ensures EdgesOk(jobs[j := job], inputs)
    ensures WaitsOk(jobs[j := job], job.dependants) && InputsOk(jobs[j := job], inputs, j, job.dependants)
  {
    EdgesKept(jobs, inputs, j, job);
    FinishWaits(jobs, j, job);
    hide WaitsOk;
    var after := jobs[j := job];
    forall k, i | 0 <= k < |after| && !after[k].state.Done? && i in inputs[k]
      ensures InputOk(after, j, job.dependants, i, k)
    {
      assert InputOk(jobs, -1, [], i, k);
    }
    forall k | 0 <= k < |after| && after[k].failedInput.Some?
      ensures FailedInputOk(after, inputs, k)
    {
      assert FailedInputOk(jobs, inputs, k);
    }
  }

  lemma FinishWaits(jobs: seq<Job>, j: JobId, job: Job)
    requires WaitsOk(jobs, []) && 0 <= j < |jobs| && !jobs[j].state.Done? && job.state.Done?
    requires job.dependants == jobs[j].dependants
    ensures WaitsOk(jobs[j := job], job.dependants)
  {
    hide Total;
    var after := jobs[j := job];
    forall k | 0 <= k < |after|
      ensures WaitOk(after, job.dependants, k)
    {
      TotalUpdate(EdgesTo(k), jobs, j, job);
      assert WaitOk(jobs, [], k);
    }
  }

  /** The next dependant owed an edge is done already, or is Blocked and waits for it. */
  lemma OwedIsBlocked(jobs: seq<Job>, owed: seq<JobId>)
    requires WaitsOk(jobs, owed) && owed != [] && InRange(jobs, owed)
    ensures jobs[owed[0]].state.Done? || (jobs[owed[0]].state.Blocked? && jobs[owed[0]].state.waiting > 0)
  {
    OwedTail(owed, owed[0]);
    assert WaitOk(jobs, owed, owed[0]);
  }

  lemma OwedTail(owed: seq<JobId>, k: JobId)
    requires owed != []
    ensures multiset(owed)[k] == multiset(owed[1..])[k] + (if k == owed[0] then 1 else 0)
  {
    assert owed == [owed[0]] + owed[1..];
  }

  /** A dependant that is done already is skipped. */
  lemma SkipOwed(jobs: seq<Job>, inputs: seq<seq<JobId>>, done: JobId, owed: seq<JobId>)
    requires EdgesOk(jobs, inputs) && WaitsOk(jobs, owed) && InputsOk(jobs, inputs, done, owed)
    requires owed != [] && InRange(jobs, owed) && jobs[owed[0]].state.Done?
    ensures WaitsOk(jobs, owed[1..]) && InputsOk(jobs, inputs, done, owed[1..])
  {
    forall k | 0 <= k < |jobs|
      ensures WaitOk(jobs, owed[1..], k)
    {
      OwedTail(owed, k);
      assert WaitOk(jobs, owed, k);
    }
    forall k, i | 0 <= k < |jobs| && !jobs[k].state.Done? && i in inputs[k]
      ensures InputOk(jobs, done, owed[1..], i, k)
    {
      assert InputOk(jobs, done, owed, i, k);
    }
  }

  /** A Blocked dependant has one edge less to wait for. */
  lemma ReleaseOk(jobs: seq<Job>, inputs: seq<seq<JobId>>, done: JobId, owed: seq<JobId>, job: Job)
    requires EdgesOk(jobs, inputs) && WaitsOk(jobs, owed) && InputsOk(jobs, inputs, done, owed)
    requires owed != [] && InRange(jobs, owed) && jobs[owed[0]].state.Blocked?
    requires 0 <= done < |jobs| && jobs[done].state.Done? && done in inputs[owed[0]]
    requires job.dependants == jobs[owed[0]].dependants
    requires job.failedInput ==
      if Failed(jobs[done]) && jobs[owed[0]].failedInput.None? then Some(done) else jobs[owed[0]].failedInput
    requires job.state == Blocked(jobs[owed[0]].state.waiting - 1)
    ensures var after := jobs[owed[0] := job];
      && EdgesOk(after, inputs) && WaitsOk(after, owed[1..]) && InputsOk(after, inputs, done, owed[1..])
  {
    var dep := owed[0];
    var after := jobs[dep := job];
    EdgesKept(jobs, inputs, dep, job);
    forall k | 0 <= k < |after|
      ensures WaitOk(after, owed[1..], k)
    {
      OwedTail(owed, k);
      SameEdges(jobs, dep, job, k);
      assert WaitOk(jobs, owed, k);
    }
    forall k, i | 0 <= k < |after| && !after[k].state.Done? && i in inputs[k]
      ensures InputOk(after, done, owed[1..], i, k)
    {
      assert InputOk(jobs, done, owed, i, k);
    }
    forall k | 0 <= k < |after| && after[k].failedInput.Some?
      ensures FailedInputOk(after, inputs, k)
    {
      assert k != dep || jobs[k].failedInput.Some? ==> FailedInputOk(jobs, inputs, k);
    }
  }

  /** A Blocked job with nothing to wait for and no failed input may be offered. */
  lemma OfferOk(jobs: seq<Job>, inputs: seq<seq<JobId>>, done: JobId, owed: seq<JobId>, j: JobId, job: Job)
    requires EdgesOk(jobs, inputs) && WaitsOk(jobs, owed) && InputsOk(jobs, inputs, done, owed)
    requires 0 <= j < |jobs| && jobs[j].state == Blocked(0) && jobs[j].failedInput.None?
    requires job == jobs[j].(state := Wantable)
    ensures EdgesOk(jobs[j := job], inputs)
    ensures WaitsOk(jobs[j := job], owed) && InputsOk(jobs[j := job], inputs, done, owed)
  {
    EdgesKept(jobs, inputs, j, job);
    var after := jobs[j := job];
    assert WaitOk(jobs, owed, j);
    assert j in owed ==> multiset(owed)[j] > 0;
    InputsDone(jobs, inputs, j, done, owed);
    forall k | 0 <= k < |after|
      ensures WaitOk(after, owed, k)
    {
      SameEdges(jobs, j, job, k);
      assert WaitOk(jobs, owed, k);
    }
    forall k, i | 0 <= k < |after| && !after[k].state.Done? && i in inputs[k]
      ensures InputOk(after, done, owed, i, k)
    {
      assert InputOk(jobs, done, owed, i, k);
    }
    forall k | 0 <= k < |after| && after[k].failedInput.Some?
      ensures FailedInputOk(after, inputs, k)
    {
      assert FailedInputOk(jobs, inputs, k);
    }
  }

  // ---------------------------------------------------------- bookkeeping

  ghost predicate GraphOk(jobs: seq<Job>, inputs: seq<seq<JobId>>, done: JobId, owed: seq<JobId>) {
    EdgesOk(jobs, inputs) && WaitsOk(jobs, owed) && InputsOk(jobs, inputs, done, owed)
  }

  ghost predicate CancelsOk(jobs: seq<Job>, cancels: seq<JobId>) {
    && NoDup(cancels)
    && forall j :: j in cancels ==> 0 <= j < |jobs| && !jobs[j].followed
  }

  ghost function Followed(jobs: seq<Job>): set<JobId> {
    set j | 0 <= j < |jobs| && jobs[j].followed
  }

  /** Where a job whose state changes has to be listed. */
  lemma ListsMove(jobs: seq<Job>, wantable: seq<JobId>, ready: seq<JobId>, j: JobId, job: Job)
    requires ListsOk(jobs, wantable, ready) && 0 <= j < |jobs|
    ensures job.state.Done? ==> ListsOk(jobs[j := job], wantable, ready)
    ensures !jobs[j].state.Wantable? && !jobs[j].state.Done? && !job.state.Wantable? && !job.state.Assigned? ==>
      ListsOk(jobs[j := job], wantable, ready)
    ensures job.state.Wantable? && !jobs[j].state.Wantable? && !jobs[j].state.Done? ==>
      ListsOk(jobs[j := job], wantable + [j], ready)
    ensures job.state.Assigned? && !jobs[j].state.Wantable? && !jobs[j].state.Done? ==>
      ListsOk(jobs[j := job], wantable, ready + [j])
      && (j in ready ==> ListsOk(jobs[j := job], wantable, ready))
    ensures job.state.Wantable? && jobs[j].state.Wantable? ==> ListsOk(jobs[j := job], wantable, ready)
  {
  }

  lemma CancelOne(jobs: seq<Job>, cancels: seq<JobId>, j: JobId, job: Job)
    requires CancelsOk(jobs, cancels) && 0 <= j < |jobs| && !job.followed
    ensures jobs[j].followed ==> CancelsOk(jobs[j := job], cancels + [j])
    ensures !jobs[j].followed ==> CancelsOk(jobs[j := job], cancels)
  {
  }

  lemma CountsMove(jobs: seq<Job>, j: JobId, job: Job)
    requires 0 <= j < |jobs|
    ensures Total(ActiveJobs, jobs[j := job]) == Total(ActiveJobs, jobs)
              - (if jobs[j].state.Active() then 1 else 0) + (if job.state.Active() then 1 else 0)
    ensures Total(OpenJobs, jobs[j := job]) == Total(OpenJobs, jobs)
              - (if jobs[j].state.Done? then 0 else 1) + (if job.state.Done? then 0 else 1)
    ensures !jobs[j].state.Done? ==> Total(OpenJobs, jobs) > 0
  {
    TotalUpdate(ActiveJobs, jobs, j, job);
    TotalUpdate(OpenJobs, jobs, j, job);
  }

  // ----------------------------------------------------------- all books

  datatype Books = Books(jobs: seq<Job>, wantable: seq<JobId>, ready: seq<JobId>, cancels: seq<JobId>, quiet: bool,
                         stream: bool)

  /** The lists agree with the jobs. Jobs in `parked` are about to be settled; when the run is
      quiet (abandoned or stopping) only jobs in `but` may still be offered. */
  ghost predicate BooksOk(b: Books, parked: set<JobId>, but: set<JobId>) {
    && FollowsOk(b.jobs)
    && ListsOk(b.jobs, b.wantable, b.ready)
    && CancelsOk(b.jobs, b.cancels)
    && ParkedOk(b.jobs, parked)
    && (b.quiet ==> NoneOfferable(b.jobs, but))
    && (!b.stream ==> forall j :: 0 <= j < |b.jobs| ==> !b.jobs[j].followed)
  }

  /** A job changes state: it is listed where its new state asks for, and cancelled if it is
      no longer followed. */
  function Moved(b: Books, j: JobId, job: Job): Books
    requires 0 <= j < |b.jobs|
  {
    var was := b.jobs[j];
    b.(jobs := b.jobs[j := job],
       wantable := if job.state.Wantable? && !was.state.Wantable? then b.wantable + [j] else b.wantable,
       ready := if job.state.Assigned? && !was.state.Assigned? then b.ready + [j] else b.ready,
       cancels := if was.followed && !job.followed then b.cancels + [j] else b.cancels)
  }

  /** Where nothing needs listing. */
  lemma MovedTo(b: Books, j: JobId, job: Job)
    requires 0 <= j < |b.jobs| && !job.state.Wantable? && !job.state.Assigned? && job.followed == b.jobs[j].followed
    ensures Moved(b, j, job) == b.(jobs := b.jobs[j := job])
  {
  }

  lemma MovedOk(b: Books, parked: set<JobId>, but: set<JobId>, j: JobId, job: Job, parked': set<JobId>,
                but': set<JobId>)
    requires BooksOk(b, parked, but)
    requires 0 <= j < |b.jobs| && !b.jobs[j].state.Done? && job.dependants == b.jobs[j].dependants
    requires b.jobs[j].state.Wantable? ==> job.state.Wantable? || job.state.Done?
    requires job.followed ==> b.jobs[j].followed
    requires job.followed && !job.state.Wantable? && !job.state.Active() ==>
      job.state == Blocked(0) || (b.jobs[j].state.Blocked? && b.jobs[j].state.waiting != 0)
    requires parked - {j} <= parked' && (job.state == Blocked(0) ==> j in parked')
    requires b.quiet ==> but - {j} <= but' && (job.state.Offerable() ==> j in but')
    ensures BooksOk(Moved(b, j, job), parked', but')
  {
    var b' := Moved(b, j, job);
    ListsMove(b.jobs, b.wantable, b.ready, j, job);
    if b.jobs[j].state.Assigned? {
      assert j in b.ready;
    }
    if !job.followed {
      CancelOne(b.jobs, b.cancels, j, job);
    }
  }

  lemma BooksWeaken(b: Books, parked: set<JobId>, but: set<JobId>, parked': set<JobId>, but': set<JobId>)
    requires BooksOk(b, parked, but)
    requires forall j :: j in parked && j !in parked' ==> 0 <= j < |b.jobs| ==> b.jobs[j].state != Blocked(0)
    requires b.quiet ==> forall j :: j in but && j !in but' ==> 0 <= j < |b.jobs| ==> !b.jobs[j].state.Offerable()
    ensures BooksOk(b, parked', but')
  {
  }

  // ------------------------------------------------- the graph, all at once

  lemma GraphOwed(jobs: seq<Job>, inputs: seq<seq<JobId>>, done: JobId, owed: seq<JobId>)
    requires GraphOk(jobs, inputs, done, owed) && owed != [] && InRange(jobs, owed)
    ensures jobs[owed[0]].state.Done? || (jobs[owed[0]].state.Blocked? && jobs[owed[0]].state.waiting > 0)
    ensures jobs[owed[0]].state.Done? ==> GraphOk(jobs, inputs, done, owed[1..])
  {
    OwedIsBlocked(jobs, owed);
    if jobs[owed[0]].state.Done? {
      SkipOwed(jobs, inputs, done, owed);
    }
  }

  /** What releasing one edge makes of the dependant. */
  function Released(job: Job, done: JobId, failed: bool): Job
    requires job.state.Blocked?
  {
    job.(failedInput := if failed && job.failedInput.None? then Some(done) else job.failedInput,
         state := Blocked(job.state.waiting - 1))
  }

  lemma GraphRelease(jobs: seq<Job>, inputs: seq<seq<JobId>>, done: JobId, owed: seq<JobId>)
    requires GraphOk(jobs, inputs, done, owed) && owed != [] && InRange(jobs, owed) && jobs[owed[0]].state.Blocked?
    requires 0 <= done < |jobs| && jobs[done].state.Done? && done in inputs[owed[0]]
    ensures GraphOk(jobs[owed[0] := Released(jobs[owed[0]], done, Failed(jobs[done]))], inputs, done, owed[1..])
  {
    ReleaseOk(jobs, inputs, done, owed, Released(jobs[owed[0]], done, Failed(jobs[done])));
  }

  lemma GraphOffer(jobs: seq<Job>, inputs: seq<seq<JobId>>, done: JobId, owed: seq<JobId>, j: JobId)
    requires GraphOk(jobs, inputs, done, owed)
    requires 0 <= j < |jobs| && jobs[j].state == Blocked(0) && jobs[j].failedInput.None?
    ensures GraphOk(jobs[j := jobs[j].(state := Wantable)], inputs, done, owed)
  {
    OfferOk(jobs, inputs, done, owed, j, jobs[j].(state := Wantable));
  }

  lemma GraphFinish(jobs: seq<Job>, inputs: seq<seq<JobId>>, j: JobId, job: Job)
    requires GraphOk(jobs, inputs, -1, [])
    requires 0 <= j < |jobs| && !jobs[j].state.Done? && job.state.Done?
    requires job.dependants == jobs[j].dependants && job.failedInput == jobs[j].failedInput
    ensures GraphOk(jobs[j := job], inputs, j, job.dependants) && InRange(jobs, job.dependants)
    ensures forall k :: 0 <= k < |job.dependants| ==> j in inputs[job.dependants[k]]
  {
    FinishOk(jobs, inputs, j, job);
  }

  lemma GraphMove(jobs: seq<Job>, inputs: seq<seq<JobId>>, j: JobId, job: Job)
    requires GraphOk(jobs, inputs, -1, [])
    requires 0 <= j < |jobs| && !jobs[j].state.Done? && !jobs[j].state.Blocked? && !job.state.Done?
    requires job.dependants == jobs[j].dependants && job.failedInput == jobs[j].failedInput
    requires job.state.Blocked? ==> job.state.waiting == 0
    ensures GraphOk(jobs[j := job], inputs, -1, []) && job.failedInput.None?
  {
    MoveOk(jobs, inputs, j, job);
  }

  lemma InputsLength(jobs: seq<Job>, inputs: seq<seq<JobId>>)
    requires GraphOk(jobs, inputs, -1, [])
    ensures |inputs| == |jobs|
  {
  }

  lemma NothingOwedNow(jobs: seq<Job>, inputs: seq<seq<JobId>>, done: JobId)
    requires GraphOk(jobs, inputs, done, [])
    ensures GraphOk(jobs, inputs, -1, [])
  {
  }

  // -------------------------------------------------------- a new input

  /** A Blocked job gets one more input. */
  function InputAdded(jobs: seq<Job>, j: JobId, i: JobId): seq<Job>
    requires 0 <= j < |jobs| && 0 <= i < |jobs| && jobs[j].state.Blocked?
  {
    if !jobs[i].state.Done? then
      var edged := jobs[i := jobs[i].(dependants := jobs[i].dependants + [j])];
      edged[j := edged[j].(state := Blocked(jobs[j].state.waiting + 1))]
    else if !jobs[i].state.succeeded then jobs[j := jobs[j].(failedInput := Some(i))]
    else jobs
  }

  /** Job j got inputs, and names one of them that failed, if any did; nothing else about the
      jobs changed but their dependants. */
  ghost predicate OnlyLinked(before: seq<Job>, after: seq<Job>, j: JobId, ins: seq<JobId>) {
    && |after| == |before| && 0 <= j < |before|
    && (forall i :: 0 <= i < |after| ==>
        && after[i].prio == before[i].prio && after[i].bounced == before[i].bounced
        && after[i].followed == before[i].followed
        && (i != j ==> after[i].state == before[i].state && after[i].failedInput == before[i].failedInput))
    && (after[j].failedInput.Some? ==>
        var f := after[j].failedInput.value; f in ins && 0 <= f < |before| && Failed(before[f]))
  }

  lemma LinkNone(jobs: seq<Job>, j: JobId)
    requires 0 <= j < |jobs| && jobs[j].failedInput.None?
    ensures OnlyLinked(jobs, jobs, j, [])
  {
  }

  lemma LinkOne(before: seq<Job>, jobs: seq<Job>, j: JobId, ins: seq<JobId>, i: JobId)
    requires OnlyLinked(before, jobs, j, ins) && 0 <= i < |jobs| && i != j && jobs[j].state.Blocked?
    ensures OnlyLinked(before, InputAdded(jobs, j, i), j, ins + [i])
  {
  }

  lemma EdgesAddInput(jobs: seq<Job>, inputs: seq<seq<JobId>>, j: JobId, i: JobId)
    requires EdgesOk(jobs, inputs)
    requires 0 <= j < |jobs| && 0 <= i < |jobs| && jobs[j].state.Blocked?
    ensures EdgesOk(InputAdded(jobs, j, i), inputs[j := inputs[j] + [i]])
  {
    var after, ins := InputAdded(jobs, j, i), inputs[j := inputs[j] + [i]];
    forall x, k | 0 <= x < |after| && k in after[x].dependants
      ensures 0 <= k < |after| && x in ins[k]
    {
      assert k in jobs[x].dependants || (x == i && k == j);
    }
  }

  lemma InputsAddInput(jobs: seq<Job>, inputs: seq<seq<JobId>>, j: JobId, i: JobId)
    requires EdgesOk(jobs, inputs) && InputsOk(jobs, inputs, -1, [])
    requires 0 <= j < |jobs| && 0 <= i < |jobs| && jobs[j].state.Blocked?
    requires EdgesOk(InputAdded(jobs, j, i), inputs[j := inputs[j] + [i]])
    ensures InputsOk(InputAdded(jobs, j, i), inputs[j := inputs[j] + [i]], -1, [])
  {
    hide EdgesOk;
    EdgesLengths(jobs, inputs);
    var after, ins := InputAdded(jobs, j, i), inputs[j := inputs[j] + [i]];
    forall k, x | 0 <= k < |after| && !after[k].state.Done? && x in ins[k]
      ensures 0 <= x < |after| && InputOk(after, -1, [], x, k)
    {
      if x in inputs[k] {
        assert InputOk(jobs, -1, [], x, k);
        InputStays(jobs, j, i, k, x);
      } else {
        NewInput(jobs, j, i);
      }
    }
    forall k | 0 <= k < |after| && after[k].failedInput.Some?
      ensures FailedInputOk(after, ins, k)
    {
      assert jobs[k].failedInput.Some? ==> FailedInputOk(jobs, inputs, k);
      FailedStays(jobs, inputs, j, i, k);
    }
  }

  lemma InputStays(jobs: seq<Job>, j: JobId, i: JobId, k: JobId, x: JobId)
    requires 0 <= j < |jobs| && 0 <= i < |jobs| && jobs[j].state.Blocked?
    requires 0 <= k < |jobs| && 0 <= x < |jobs| && InputOk(jobs, -1, [], x, k)
    ensures InputOk(InputAdded(jobs, j, i), -1, [], x, k)
  {
  }

  lemma NewInput(jobs: seq<Job>, j: JobId, i: JobId)
    requires 0 <= j < |jobs| && 0 <= i < |jobs| && jobs[j].state.Blocked?
    ensures InputOk(InputAdded(jobs, j, i), -1, [], i, j)
  {
  }

  lemma FailedStays(jobs: seq<Job>, inputs: seq<seq<JobId>>, j: JobId, i: JobId, k: JobId)
    requires 0 <= j < |jobs| && 0 <= i < |jobs| && jobs[j].state.Blocked? && 0 <= k < |jobs|
    requires EdgesOk(jobs, inputs) && EdgesOk(InputAdded(jobs, j, i), inputs[j := inputs[j] + [i]])
    requires jobs[k].failedInput.Some? ==> FailedInputOk(jobs, inputs, k)
    ensures var after := InputAdded(jobs, j, i);
      after[k].failedInput.Some? ==> FailedInputOk(after, inputs[j := inputs[j] + [i]], k)
  {
  }

  lemma EdgesLengths(jobs: seq<Job>, inputs: seq<seq<JobId>>)
    requires EdgesOk(jobs, inputs)
    ensures |inputs| == |jobs| && forall j, i :: 0 <= j < |jobs| && i in inputs[j] ==> 0 <= i < |jobs|
  {
  }

  lemma GraphAddInput(jobs: seq<Job>, inputs: seq<seq<JobId>>, j: JobId, i: JobId)
    requires GraphOk(jobs, inputs, -1, [])
    requires 0 <= j < |jobs| && 0 <= i < |jobs| && jobs[j].state.Blocked?
    ensures |inputs| == |jobs| && GraphOk(InputAdded(jobs, j, i), inputs[j := inputs[j] + [i]], -1, [])
    ensures jobs[j].state.waiting >= 0
  {
    hide EdgesOk, InputsOk, Total, WaitOk;
    EdgesLengths(jobs, inputs);
    EdgesAddInput(jobs, inputs, j, i);
    InputsAddInput(jobs, inputs, j, i);
    var after := InputAdded(jobs, j, i);
    forall k | 0 <= k < |after|
      ensures WaitOk(after, [], k)
    {
      assert WaitOk(jobs, [], k);
      WaitAfterInput(jobs, j, i, k);
    }
    WaitAfterInput(jobs, j, i, j);
  }

  lemma WaitAfterInput(jobs: seq<Job>, j: JobId, i: JobId, k: JobId)
    requires 0 <= j < |jobs| && 0 <= i < |jobs| && jobs[j].state.Blocked? && 0 <= k < |jobs| && WaitOk(jobs, [], k)
    ensures WaitOk(InputAdded(jobs, j, i), [], k) && (jobs[k].state.Blocked? ==> jobs[k].state.waiting >= 0)
  {
    hide Total;
    EdgesAfterInput(jobs, j, i, k);
  }

  lemma EdgesAfterInput(jobs: seq<Job>, j: JobId, i: JobId, k: JobId)
    requires 0 <= j < |jobs| && 0 <= i < |jobs| && jobs[j].state.Blocked?
    ensures Total(EdgesTo(k), InputAdded(jobs, j, i)) ==
      Total(EdgesTo(k), jobs) + (if k == j && !jobs[i].state.Done? then 1 else 0)
  {
    hide Total;
    if !jobs[i].state.Done? {
      var edge := jobs[i].(dependants := jobs[i].dependants + [j]);
      OneMoreEdge(jobs[i], j, k);
      TotalUpdate(EdgesTo(k), jobs, i, edge);
      var edged := jobs[i := edge];
      hide Weight;
      SameEdges(edged, j, edged[j].(state := Blocked(jobs[j].state.waiting + 1)), k);
    } else if !jobs[i].state.succeeded {
      SameEdges(jobs, j, jobs[j].(failedInput := Some(i)), k);
    }
  }

  lemma OneMoreEdge(job: Job, j: JobId, k: JobId)
    requires !job.state.Done?
    ensures Weight(EdgesTo(k), job.(dependants := job.dependants + [j])) ==
      Weight(EdgesTo(k), job) + (if k == j then 1 else 0)
  {
  }

  /** The books after a job gets one more input. */
  lemma BooksAddInput(b: Books, parked: set<JobId>, but: set<JobId>, j: JobId, i: JobId)
    requires BooksOk(b, parked, but)
    requires 0 <= j < |b.jobs| && 0 <= i < |b.jobs| && b.jobs[j].state.Blocked? && b.jobs[j].state.waiting >= 0
    requires b.jobs[j].followed ==> b.jobs[i].state.Done?
    ensures BooksOk(b.(jobs := InputAdded(b.jobs, j, i)), if b.jobs[i].state.Done? then parked else parked - {j}, but)
  {
  }

  lemma CountsAddInput(jobs: seq<Job>, j: JobId, i: JobId)
    requires 0 <= j < |jobs| && 0 <= i < |jobs| && jobs[j].state.Blocked?
    ensures Total(ActiveJobs, InputAdded(jobs, j, i)) == Total(ActiveJobs, jobs)
    ensures Total(OpenJobs, InputAdded(jobs, j, i)) == Total(OpenJobs, jobs)
  {
    if !jobs[i].state.Done? {
      var edged := jobs[i := jobs[i].(dependants := jobs[i].dependants + [j])];
      CountsMove(jobs, i, edged[i]);
      CountsMove(edged, j, edged[j].(state := Blocked(jobs[j].state.waiting + 1)));
    } else if !jobs[i].state.succeeded {
      CountsMove(jobs, j, jobs[j].(failedInput := Some(i)));
    }
  }

  /** A new job, nothing known of its inputs yet. */
  lemma GraphAppend(jobs0: seq<Job>, inputs: seq<seq<JobId>>, job: Job)
    requires GraphOk(jobs0, inputs, -1, [])
    requires job.state == Blocked(0) && job.dependants == [] && job.failedInput.None?
    ensures GraphOk(jobs0 + [job], inputs + [[]], -1, [])
  {
    var jobs, ins := jobs0 + [job], inputs + [[]];
    assert EdgesOk(jobs, ins);
    forall k | 0 <= k < |jobs|
      ensures WaitOk(jobs, [], k)
    {
      TotalAppend(EdgesTo(k), jobs0, job);
      if k < |jobs0| {
        assert WaitOk(jobs0, [], k);
      } else {
        NoEdgesTo(jobs0, k);
      }
    }
    hide WaitsOk;
    forall k, x | 0 <= k < |jobs| && !jobs[k].state.Done? && x in ins[k]
      ensures InputOk(jobs, -1, [], x, k)
    {
      assert InputOk(jobs0, -1, [], x, k);
    }
    forall k | 0 <= k < |jobs| && jobs[k].failedInput.Some?
      ensures FailedInputOk(jobs, ins, k)
    {
      assert FailedInputOk(jobs0, inputs, k);
    }
  }

  lemma BooksAppend(b: Books, job: Job)
    requires BooksOk(b, {}, {}) && job.state == Blocked(0) && job.dependants == [] && !job.followed
    ensures BooksOk(b.(jobs := b.jobs + [job]), {|b.jobs|}, {})
    ensures Total(ActiveJobs, b.jobs + [job]) == Total(ActiveJobs, b.jobs)
    ensures Total(OpenJobs, b.jobs + [job]) == Total(OpenJobs, b.jobs) + 1
  {
    hide Total;
    TotalAppend(ActiveJobs, b.jobs, job);
    TotalAppend(OpenJobs, b.jobs, job);
    AppendLists(b, job);
    hide FollowsOk, ListsOk, CancelsOk;
  }

  lemma AppendLists(b: Books, job: Job)
    requires FollowsOk(b.jobs) && ListsOk(b.jobs, b.wantable, b.ready) && CancelsOk(b.jobs, b.cancels)
    requires job.state == Blocked(0) && !job.followed
    ensures var jobs := b.jobs + [job];
      FollowsOk(jobs) && ListsOk(jobs, b.wantable, b.ready) && CancelsOk(jobs, b.cancels)
  {
  }

  lemma {:induction false} NoEdgesTo(jobs: seq<Job>, k: JobId)
    requires forall i :: 0 <= i < |jobs| ==> k !in jobs[i].dependants
    ensures Total(EdgesTo(k), jobs) == 0
  {
    if Total(EdgesTo(k), jobs) > 0 {
      var i := TotalSource(EdgesTo(k), jobs);
    }
  }

  // -------------------------------------------------------- following

  ghost function IdSet(ids: seq<JobId>): (r: set<JobId>)
    ensures forall j :: j in r <==> j in ids
  {
    set j | j in ids
  }

  /** Nothing is newly followed, and a Cancel is queued for exactly what no longer is. */
  ghost predicate FollowStep(jobs0: seq<Job>, cancels0: seq<JobId>, jobs: seq<Job>, cancels: seq<JobId>) {
    && Followed(jobs) <= Followed(jobs0)
    && IdSet(cancels) == IdSet(cancels0) + (Followed(jobs0) - Followed(jobs))
  }

  lemma FollowStepTrans(jobs0: seq<Job>, cancels0: seq<JobId>, jobs1: seq<Job>, cancels1: seq<JobId>, jobs: seq<Job>,
                        cancels: seq<JobId>)
    requires FollowStep(jobs0, cancels0, jobs1, cancels1) && FollowStep(jobs1, cancels1, jobs, cancels)
    ensures FollowStep(jobs0, cancels0, jobs, cancels)
  {
  }

  lemma FollowStepSame(jobs0: seq<Job>, jobs: seq<Job>, cancels: seq<JobId>)
    requires |jobs0| <= |jobs|
    requires forall j :: 0 <= j < |jobs| ==> jobs[j].followed == (j < |jobs0| && jobs0[j].followed)
    ensures FollowStep(jobs0, cancels, jobs, cancels)
  {
  }

  // -------------------------------------------------------- taking wants

  /** An offered or placed job is followed from now on. */
  lemma FollowOk(b: Books, j: JobId)
    requires BooksOk(b, {}, {}) && b.stream && b.cancels == []
    requires 0 <= j < |b.jobs| && (b.jobs[j].state.Wantable? || b.jobs[j].state.Active())
    ensures BooksOk(b.(jobs := b.jobs[j := b.jobs[j].(followed := true)]), {}, {})
  {
  }

  /** The first of the wantable list is wanted and followed. */
  lemma WantOk(b: Books, j: JobId)
    requires BooksOk(b, {}, {}) && b.stream && b.cancels == [] && !b.quiet
    requires b.wantable != [] && b.wantable[0] == j && 0 <= j < |b.jobs| && b.jobs[j].state.Wantable?
    ensures var job := b.jobs[j].(state := Wanted(None), followed := true);
      BooksOk(b.(jobs := b.jobs[j := job], wantable := b.wantable[1..]), {}, {})
  {
    assert b.wantable == [j] + b.wantable[1..];
    assert forall x :: x in b.wantable <==> x == j || x in b.wantable[1..];
  }

  /** Reordering, or dropping ended jobs from, the wantable list. */
  lemma WantableReordered(b: Books, wantable: seq<JobId>)
    requires BooksOk(b, {}, {}) && NoDup(wantable)
    requires forall j :: j in wantable ==> j in b.wantable
    requires forall j :: j in b.wantable && b.jobs[j].state.Wantable? ==> j in wantable
    ensures BooksOk(b.(wantable := wantable), {}, {})
  {
  }

  lemma BooksFacts(b: Books)
    requires BooksOk(b, {}, {})
    ensures forall j :: 0 <= j < |b.jobs| && b.jobs[j].state.Wantable? ==> j in b.wantable
    ensures forall j :: j in b.wantable ==> 0 <= j < |b.jobs| && (b.jobs[j].state.Wantable? || b.jobs[j].state.Done?)
    ensures NoDup(b.wantable) && forall k :: 0 <= k < |b.wantable| ==> 0 <= b.wantable[k] < |b.jobs|
    ensures b.quiet ==> forall j :: 0 <= j < |b.jobs| ==> !b.jobs[j].state.Offerable()
    ensures forall j :: 0 <= j < |b.jobs| && b.jobs[j].followed ==>
      b.jobs[j].state.Wantable? || b.jobs[j].state.Active()
    ensures forall j :: 0 <= j < |b.jobs| && b.jobs[j].state.Blocked? ==> b.jobs[j].state.waiting != 0
    ensures forall j :: 0 <= j < |b.ready| ==> 0 <= b.ready[j] < |b.jobs|
    ensures !b.stream ==> forall j :: 0 <= j < |b.jobs| ==> !b.jobs[j].followed
  {
    assert forall k :: 0 <= k < |b.wantable| ==> b.wantable[k] in b.wantable;
    assert forall k :: 0 <= k < |b.ready| ==> b.ready[k] in b.ready;
  }
}
