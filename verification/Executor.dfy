/** The jobs of one client and every call that moves them (src/client/executor.hh, class Executor). */
module Executors {
  import opened Lists
  import opened JobGraph

  datatype Work = Work(job: JobId, result: JobState)

  ghost function WorkIds(work: seq<Work>): set<JobId> {
    set k | 0 <= k < |work| :: work[k].job
  }

  ghost predicate WorkOk(jobs: seq<Job>, work: seq<Work>) {
    forall k :: 0 <= k < |work| ==> 0 <= work[k].job < |jobs| && work[k].result.Done?
  }

  /** What a settlement may do to a job, besides finishing it. */
  ghost predicate Later(b: Job, a: Job) {
    && a.prio == b.prio && a.dependants == b.dependants && a.bounced == b.bounced
    && (b.state.Done? ==> a == b)
    && (a.followed ==> b.followed)
    && (!a.state.Done? ==> a.followed == b.followed)
    && (!a.state.Done? && !b.state.Blocked? ==> a == b)
    && (!a.state.Done? ==> a.state == b.state || (b.state.Blocked? && (a.state.Blocked? || a.state.Wantable?)))
  }

  ghost predicate AllLater(before: seq<Job>, after: seq<Job>) {
    |after| == |before| && forall j :: 0 <= j < |after| ==> Later(before[j], after[j])
  }

  /** Cancels are queued for exactly the jobs that stopped being followed. */
  ghost predicate CancelledNow(before: seq<Job>, cancels0: seq<JobId>, after: seq<Job>, cancels: seq<JobId>) {
    && |after| == |before|
    && (forall j :: j in cancels <==> j in cancels0 || (0 <= j < |before| && before[j].followed && !after[j].followed))
  }

  ghost predicate AllEnded(jobs: seq<Job>, ids: seq<JobId>) {
    forall i :: i in ids ==> 0 <= i < |jobs| && jobs[i].state.Done?
  }

  ghost predicate SomeFailed(jobs: seq<Job>, ids: seq<JobId>) {
    exists i :: i in ids && 0 <= i < |jobs| && Failed(jobs[i])
  }

  /** The state of the run that decides what ends a job: its inputs, and whether it is stopping
      or abandoned. */
  datatype Cause = Cause(inputs: seq<seq<JobId>>, stopping: bool, abandoned: bool)

  /** Why a job may end with this result though no event ended it. */
  ghost predicate EndsAs(c: Cause, jobs: seq<Job>, j: JobId, result: JobState) {
    && 0 <= j < |c.inputs| && result.Done? && !result.succeeded
    && match result.outcome
       case DependencyFailed => AllEnded(jobs, c.inputs[j]) && SomeFailed(jobs, c.inputs[j])
       case Cancelled => c.stopping
       case Lost => c.abandoned && AllEnded(jobs, c.inputs[j])
       case _ => false
  }

  /** Only a blocked job ends for its inputs, and only a job that does not run is cancelled. */
  predicate MayEnd(b: JobState, result: JobState) {
    b.Blocked? || (!b.Running? && !b.Done? && result.Done? && result.outcome.Cancelled?)
  }

  /** Every job that newly ended, `firsts` excepted, had a reason. */
  ghost predicate Caused(before: seq<Job>, after: seq<Job>, c: Cause, firsts: set<JobId>) {
    |after| == |before| &&
    forall j :: 0 <= j < |after| && j !in firsts && after[j].state.Done? && !before[j].state.Done? ==>
      EndsAs(c, after, j, after[j].state) && MayEnd(before[j].state, after[j].state)
  }

  /** What was queued since: each item has its reason. */
  ghost predicate NewWork(before: seq<Job>, jobs: seq<Job>, c: Cause, work: seq<Work>, work': seq<Work>) {
    && work <= work'
    && forall k :: |work| <= k < |work'| ==>
      && 0 <= work'[k].job < |before|
      && EndsAs(c, jobs, work'[k].job, work'[k].result) && MayEnd(before[work'[k].job].state, work'[k].result)
  }

  lemma NoNewWork(before: seq<Job>, jobs: seq<Job>, c: Cause, work: seq<Work>)
    ensures NewWork(before, jobs, c, work, work)
  {
  }

  ghost predicate DoneStays(jobs: seq<Job>, jobs': seq<Job>) {
    |jobs'| == |jobs| && forall i :: 0 <= i < |jobs| && jobs[i].state.Done? ==> jobs'[i] == jobs[i]
  }

  ghost predicate SameRun(c: Cause, c': Cause) {
    c'.inputs == c.inputs && c'.abandoned == c.abandoned && (c.stopping ==> c'.stopping)
  }

  /** Reasons stay: what ended stays as it is, and the run goes on stopping. */
  lemma EndsAsLater(c: Cause, jobs: seq<Job>, c': Cause, jobs': seq<Job>, j: JobId, result: JobState)
    requires EndsAs(c, jobs, j, result) && DoneStays(jobs, jobs') && SameRun(c, c')
    ensures EndsAs(c', jobs', j, result)
  {
    if result.outcome.DependencyFailed? {
      var i :| i in c.inputs[j] && 0 <= i < |jobs| && Failed(jobs[i]);
      assert Failed(jobs'[i]);
    }
  }

  /** What is open now and is blocked was blocked before, and what ran before runs. */
  ghost predicate OpenSince(before: seq<Job>, jobs: seq<Job>) {
    |jobs| == |before| && forall j :: 0 <= j < |jobs| && !jobs[j].state.Done? ==>
      (jobs[j].state.Blocked? ==> before[j].state.Blocked?) && (before[j].state.Running? <==> jobs[j].state.Running?)
      && !before[j].state.Done?
  }

  /** More work, queued after a change. */
  lemma NewWorkMore(before: seq<Job>, mid: seq<Job>, c: Cause, jobs: seq<Job>, c': Cause,
                    work0: seq<Work>, work: seq<Work>, work': seq<Work>)
    requires NewWork(before, mid, c, work0, work) && NewWork(mid, jobs, c', work, work')
    requires OpenSince(before, mid) && DoneStays(mid, jobs) && SameRun(c, c')
    ensures NewWork(before, jobs, c', work0, work')
  {
    hide EndsAs;
    forall k | |work0| <= k < |work'|
      ensures EndsAs(c', jobs, work'[k].job, work'[k].result)
    {
      if k < |work| {
        assert work'[k] == work[k];
        EndsAsLater(c, mid, c', jobs, work[k].job, work[k].result);
      }
    }
  }

  lemma NewWorkBlocked(before: seq<Job>, mid: seq<Job>, jobs: seq<Job>, c: Cause, work: seq<Work>, work': seq<Work>,
                       j: JobId)
    requires NewWork(mid, jobs, c, work, work') && 0 <= j < |before| && before[j].state.Blocked?
    requires |mid| == |before| && mid == before[j := mid[j]]
    ensures NewWork(before, jobs, c, work, work')
  {
    hide EndsAs;
  }

  lemma NewWorkFinish(before: seq<Job>, mid: seq<Job>, jobs: seq<Job>, c: Cause, work: seq<Work>, work': seq<Work>,
                      j: JobId)
    requires NewWork(mid, jobs, c, work, work') && 0 <= j < |before| && |mid| == |before| && mid == before[j := mid[j]]
    requires mid[j].state.Done?
    ensures NewWork(before, jobs, c, work, work')
  {
    hide EndsAs;
  }

  lemma NewWorkGrows(before: seq<Job>, jobs: seq<Job>, c: Cause, work: seq<Work>, work': seq<Work>)
    requires NewWork(before, jobs, c, work, work')
    ensures work <= work'
  {
  }

  lemma NewWorkPop(before: seq<Job>, jobs: seq<Job>, c: Cause, work: seq<Work>)
    requires NewWork(before, jobs, c, [], work) && work != []
    ensures NewWork(before, jobs, c, [], work[..|work| - 1])
  {
  }

  lemma NewWorkAt(before: seq<Job>, jobs: seq<Job>, c: Cause, work: seq<Work>)
    requires NewWork(before, jobs, c, [], work) && work != []
    ensures var next := work[|work| - 1];
      0 <= next.job < |before| && EndsAs(c, jobs, next.job, next.result) && MayEnd(before[next.job].state, next.result)
  {
  }

  lemma CausedStart(jobs: seq<Job>, c: Cause, firsts: set<JobId>)
    ensures Caused(jobs, jobs, c, firsts)
  {
  }

  /** One more job ended. */
  lemma CausedFinish(before: seq<Job>, jobs: seq<Job>, c: Cause, after: seq<Job>, c': Cause, first: JobId, j: JobId,
                     result: JobState)
    requires Caused(before, jobs, c, {first}) && SameRun(c, c') && result.Done?
    requires 0 <= j < |jobs| && !jobs[j].state.Done?
    requires j != first ==> EndsAs(c, jobs, j, result) && MayEnd(before[j].state, result)
    requires AllStillOpen(jobs[j := jobs[j].(state := result, followed := false)], after)
    ensures Caused(before, after, c', {first})
  {
    hide EndsAs;
    forall k | 0 <= k < |after| && k != first && after[k].state.Done? && !before[k].state.Done?
      ensures EndsAs(c', after, k, after[k].state) && MayEnd(before[k].state, after[k].state)
    {
      EndsAsLater(c, jobs, c', after, k, after[k].state);
    }
  }

  lemma CausedMore(before: seq<Job>, mid: seq<Job>, c: Cause, after: seq<Job>, c': Cause, firsts: set<JobId>, j: JobId)
    requires Caused(before, mid, c, firsts) && Caused(mid, after, c', {j})
    requires OpenSince(before, mid) && DoneStays(mid, after) && SameRun(c, c')
    requires j in firsts ||
      (0 <= j < |after| && EndsAs(c', mid, j, after[j].state) && MayEnd(before[j].state, after[j].state))
    ensures Caused(before, after, c', firsts)
  {
    hide EndsAs;
    forall k | 0 <= k < |after| && k !in firsts && after[k].state.Done? && !before[k].state.Done?
      ensures EndsAs(c', after, k, after[k].state) && MayEnd(before[k].state, after[k].state)
    {
      if mid[k].state.Done? {
        EndsAsLater(c, mid, c', after, k, after[k].state);
      } else if k == j {
        EndsAsLater(c', mid, c', after, k, after[k].state);
      }
    }
  }

  lemma LaterSince(before: seq<Job>, after: seq<Job>)
    requires AllLater(before, after)
    ensures OpenSince(before, after) && DoneStays(before, after)
  {
  }

  // ------------------------------------------- ending several jobs one after the other

  predicate Timed(job: Job) {
    job.state.Wanted? && job.state.unplaceableSince.Some?
  }

  function Due(job: Job, grace: int): int {
    if Timed(job) then job.state.unplaceableSince.value + grace else 0
  }

  predicate Overdue(job: Job, now: int, grace: int) {
    Timed(job) && Due(job, grace) <= now
  }

  ghost function Late(jobs: seq<Job>, now: int, grace: int): set<JobId> {
    set j | 0 <= j < |jobs| && Overdue(jobs[j], now, grace)
  }

  ghost function Offered(jobs: seq<Job>): set<JobId> {
    set j | 0 <= j < |jobs| && jobs[j].state.Offerable()
  }

  /** These jobs are as before, or ended with this outcome, or were cancelled on the way. */
  ghost predicate Pending(before: seq<Job>, jobs: seq<Job>, firsts: set<JobId>, outcome: Outcome, stopping: bool) {
    && |jobs| == |before|
    && forall k :: k in firsts ==>
      && 0 <= k < |before| && before[k].state.Offerable()
      && (jobs[k] == before[k] || jobs[k].state == JobState.Done(outcome, false)
          || (stopping && jobs[k].state == JobState.Done(Cancelled, false)))
  }

  lemma PendingStart(jobs: seq<Job>, firsts: set<JobId>, outcome: Outcome, stopping: bool)
    requires forall k :: k in firsts ==> 0 <= k < |jobs| && jobs[k].state.Offerable()
    ensures Pending(jobs, jobs, firsts, outcome, stopping)
  {
  }

  lemma PendingStep(before: seq<Job>, jobs: seq<Job>, after: seq<Job>, cancels0: seq<JobId>, cancels: seq<JobId>,
                    c: Cause, firsts: set<JobId>, j: JobId, outcome: Outcome, stopping: bool)
    requires Pending(before, jobs, firsts, outcome, stopping) && (stopping ==> c.stopping)
    requires Settled(jobs, cancels0, after, cancels) && Caused(jobs, after, c, {j})
    requires 0 <= j < |after| && after[j].state == JobState.Done(outcome, false)
    ensures Pending(before, after, firsts, outcome, c.stopping)
  {
    hide AllEnded, SomeFailed;
    forall k | k in firsts
      ensures after[k] == before[k] || after[k].state == JobState.Done(outcome, false)
              || (c.stopping && after[k].state == JobState.Done(Cancelled, false))
    {
      assert Later(jobs[k], after[k]);
    }
  }

  lemma PendingEnd(before: seq<Job>, jobs: seq<Job>, firsts: set<JobId>, outcome: Outcome, stopping: bool)
    requires Pending(before, jobs, firsts, outcome, stopping)
    ensures |jobs| == |before| && forall k :: k in firsts && 0 <= k < |jobs| && jobs[k] != before[k] ==>
      jobs[k].state == JobState.Done(outcome, false) || (stopping && jobs[k].state == JobState.Done(Cancelled, false))
    ensures forall k :: k in firsts ==> 0 <= k < |before| && before[k].state.Offerable()
  {
  }

  lemma WantedBefore(before: seq<Job>, jobs: seq<Job>, j: JobId)
    requires AllLater(before, jobs) && 0 <= j < |jobs| && jobs[j].state.Wanted?
    ensures before[j] == jobs[j]
  {
  }

  lemma OfferedBefore(before: seq<Job>, jobs: seq<Job>, j: JobId)
    requires AllLater(before, jobs) && 0 <= j < |jobs| && jobs[j].state.Offerable()
    ensures j in Offered(before) || before[j].state.Blocked?
  {
  }

  lemma OfferedEnded(jobs: seq<Job>, inputs: seq<seq<JobId>>, j: JobId)
    requires GraphOk(jobs, inputs, -1, []) && 0 <= j < |jobs| && jobs[j].state.Offerable()
    ensures |inputs| == |jobs| && AllEnded(jobs, inputs[j])
  {
  }

  /** A running job never ends for others' sake, nor does an assigned one unless the run stops. */
  lemma PlacedStay(before: seq<Job>, after: seq<Job>, c: Cause, firsts: set<JobId>)
    requires AllLater(before, after) && Caused(before, after, c, firsts)
    requires forall j :: j in firsts ==> 0 <= j < |before| && before[j].state.Offerable()
    ensures forall j :: 0 <= j < |after| && (before[j].state.Running? || (!c.stopping && before[j].state.Assigned?)) ==>
      after[j] == before[j]
  {
  }

  lemma StillOpenSince(before: seq<Job>, after: seq<Job>)
    requires AllStillOpen(before, after)
    ensures OpenSince(before, after) && DoneStays(before, after)
  {
  }

  lemma FinishedSince(jobs: seq<Job>, j: JobId, result: JobState, after: seq<Job>)
    requires 0 <= j < |jobs| && !jobs[j].state.Done? && result.Done?
    requires AllStillOpen(jobs[j := jobs[j].(state := result, followed := false)], after)
    ensures OpenSince(jobs, after) && DoneStays(jobs, after)
  {
  }

  /** A job that waits for nothing ends for its inputs, or for the run. */
  lemma ParkedEnds(c: Cause, jobs: seq<Job>, done: JobId, owed: seq<JobId>, j: JobId)
    requires GraphOk(jobs, c.inputs, done, owed) && 0 <= j < |jobs| && jobs[j].state == Blocked(0)
    ensures |c.inputs| == |jobs| && AllEnded(jobs, c.inputs[j])
    ensures jobs[j].failedInput.Some? ==> SomeFailed(jobs, c.inputs[j])
  {
    assert WaitOk(jobs, owed, j);
    hide Total;
    forall i | i in c.inputs[j]
      ensures 0 <= i < |jobs| && jobs[i].state.Done?
    {
      assert InputOk(jobs, done, owed, i, j);
      TotalUpdate(EdgesTo(j), jobs, i, jobs[i]);
    }
    if jobs[j].failedInput.Some? {
      assert FailedInputOk(jobs, c.inputs, j);
    }
  }

  /** Waiting for less, or offered. */
  ghost predicate StillOpen(b: Job, a: Job) {
    Later(b, a) && a.followed == b.followed && a.state.Done? == b.state.Done?
  }

  lemma SameIsOpen(job: Job)
    ensures StillOpen(job, job)
  {
  }

  lemma ReleasedIsOpen(job: Job, done: JobId, failed: bool)
    requires job.state.Blocked?
    ensures var r := Released(job, done, failed);
      && StillOpen(job, r) && StillOpen(job, r.(state := Wantable))
      && r.state == Blocked(job.state.waiting - 1) && r.dependants == job.dependants && r.followed == job.followed
  {
  }

  ghost predicate AllStillOpen(before: seq<Job>, after: seq<Job>) {
    |after| == |before| && forall j :: 0 <= j < |after| ==> StillOpen(before[j], after[j])
  }

  lemma AllOpenStart(jobs: seq<Job>)
    ensures AllStillOpen(jobs, jobs)
  {
  }

  lemma AllOpenStep(before: seq<Job>, jobs: seq<Job>, j: JobId, job: Job)
    requires AllStillOpen(before, jobs) && 0 <= j < |jobs| && StillOpen(jobs[j], job)
    ensures AllStillOpen(before, jobs[j := job])
  {
  }

  /** What a job becomes when n of its edges are released. */
  ghost predicate ReleasedBy(b: Job, a: Job, n: nat, done: JobId, failed: bool) {
    if !b.state.Blocked? || n == 0 then a == b
    else
      && a == b.(state := a.state, failedInput := if failed && b.failedInput.None? then Some(done) else b.failedInput)
      && (a.state == Blocked(b.state.waiting - n) || (b.state.waiting == n && a.state.Wantable?))
  }

  ghost predicate AllReleased(before: seq<Job>, after: seq<Job>, deps: seq<JobId>, done: JobId, failed: bool) {
    && |after| == |before|
    && forall j :: 0 <= j < |after| ==> ReleasedBy(before[j], after[j], multiset(deps)[j], done, failed)
  }

  lemma NoneReleased(jobs: seq<Job>, done: JobId, failed: bool)
    ensures AllReleased(jobs, jobs, [], done, failed)
  {
  }

  lemma ReleasedMore(before: seq<Job>, jobs: seq<Job>, after: seq<Job>, deps: seq<JobId>, dep: JobId, done: JobId,
                     failed: bool)
    requires AllReleased(before, jobs, deps, done, failed) && 0 <= dep < |jobs| == |after|
    requires jobs[dep].state.Blocked? || jobs[dep].state.Done?
    requires after == jobs[dep := after[dep]] && ReleasedBy(jobs[dep], after[dep], 1, done, failed)
    ensures AllReleased(before, after, deps + [dep], done, failed)
  {
    forall j | 0 <= j < |after|
      ensures ReleasedBy(before[j], after[j], multiset(deps + [dep])[j], done, failed)
    {
      assert multiset(deps + [dep])[j] == multiset(deps)[j] + (if j == dep then 1 else 0);
      assert ReleasedBy(before[j], jobs[j], multiset(deps)[j], done, failed);
    }
  }

  /** A job that has ended stays as it is. */
  lemma AllOpenAt(before: seq<Job>, jobs: seq<Job>, j: JobId)
    requires AllStillOpen(before, jobs) && 0 <= j < |before| && before[j].state.Done?
    ensures |jobs| == |before| && jobs[j] == before[j]
  {
  }

  /** The effect of a settlement. */
  ghost predicate Settled(before: seq<Job>, cancels0: seq<JobId>, after: seq<Job>, cancels: seq<JobId>) {
    AllLater(before, after) && CancelledNow(before, cancels0, after, cancels)
  }

  lemma SettledStart(jobs: seq<Job>, cancels: seq<JobId>)
    ensures Settled(jobs, cancels, jobs, cancels)
  {
  }

  lemma SettledFinish(before: seq<Job>, cancels0: seq<JobId>, jobs: seq<Job>, cancels: seq<JobId>, after: seq<Job>,
                      j: JobId, result: JobState)
    requires Settled(before, cancels0, jobs, cancels) && 0 <= j < |jobs| && !jobs[j].state.Done? && result.Done?
    requires AllStillOpen(jobs[j := jobs[j].(state := result, followed := false)], after)
    ensures Settled(before, cancels0, after, if jobs[j].followed then cancels + [j] else cancels)
  {
  }

  lemma SettledSince(before: seq<Job>, cancels0: seq<JobId>, after: seq<Job>, cancels: seq<JobId>)
    requires Settled(before, cancels0, after, cancels)
    ensures OpenSince(before, after) && DoneStays(before, after)
  {
  }

  lemma SettledFollowStep(before: seq<Job>, cancels0: seq<JobId>, after: seq<Job>, cancels: seq<JobId>)
    requires Settled(before, cancels0, after, cancels)
    ensures FollowStep(before, cancels0, after, cancels)
  {
  }

  /** All jobs that have not ended and do not run are about to be ended. */
  ghost predicate Listed(jobs: seq<Job>, work: seq<Work>) {
    forall j :: 0 <= j < |jobs| && !jobs[j].state.Running? && !jobs[j].state.Done? ==> j in WorkIds(work)
  }

  lemma ListedPop(jobs: seq<Job>, work: seq<Work>)
    requires Listed(jobs, work) && work != [] && WorkOk(jobs, work) && jobs[work[|work| - 1].job].state.Done?
    ensures Listed(jobs, work[..|work| - 1])
  {
  }

  lemma ListedFinish(before: seq<Job>, jobs: seq<Job>, work: seq<Work>, result: JobState, work': seq<Work>)
    requires Listed(before, work) && work != [] && WorkOk(before, work) && result.Done? && work[..|work| - 1] <= work'
    requires var j := work[|work| - 1].job;
      AllStillOpen(before[j := before[j].(state := result, followed := false)], jobs)
    ensures Listed(jobs, work')
  {
  }

  lemma NoneListed(jobs: seq<Job>, work: seq<Work>)
    requires Listed(jobs, work) && work == []
    ensures forall j :: 0 <= j < |jobs| ==> jobs[j].state.Running? || jobs[j].state.Done?
  {
  }

  lemma NoWork(work: seq<Work>)
    requires work == []
    ensures WorkIds(work) == {}
  {
  }

  lemma WorkIdsPop(work: seq<Work>)
    requires work != []
    ensures var n := |work| - 1; WorkIds(work) == WorkIds(work[..n]) + {work[n].job}
  {
  }

  lemma WorkIdsPush(work: seq<Work>, w: Work)
    ensures WorkIds(work + [w]) == WorkIds(work) + {w.job}
  {
    WorkIdsPop(work + [w]);
    assert (work + [w])[..|work|] == work;
  }

  class Executor {
    const threads: nat
    const rescheduleRetries: nat
    const keepGoing: bool
    var jobs: seq<Job>
    var wantable: seq<JobId>
    var rewant: seq<JobId>
    var cancels: seq<JobId>
    var ready: seq<JobId>
    var remaining: int
    var active: int
    var progressed: nat
    var stream: bool
    var abandoned: bool
    var stopping: bool
    ghost var inputs: seq<seq<JobId>>   // of each job, as added or found missing

    ghost function TheBooks(): Books
      reads this
    {
      Books(jobs, wantable, ready, cancels, abandoned || stopping, stream)
    }

    ghost function TheCause(): Cause
      reads this
    {
      Cause(inputs, stopping, abandoned)
    }

    ghost predicate Counts()
      reads this
    {
      active == Total(ActiveJobs, jobs) <= threads && remaining == Total(OpenJobs, jobs)
    }

    /** What every call keeps. */
    ghost predicate Valid()
      reads this
    {
      && GraphOk(jobs, inputs, -1, []) && BooksOk(TheBooks(), {}, {}) && Counts()
      && rewant == [] && (stopping ==> !keepGoing)
    }

    /** Valid, but for the placed jobs a new stream has to be told about. */
    ghost predicate Greeting()
      reads this
    {
      && GraphOk(jobs, inputs, -1, []) && BooksOk(TheBooks(), {}, {}) && Counts() && (stopping ==> !keepGoing)
      && (forall k :: 0 <= k < |rewant| ==> 0 <= rewant[k] < |jobs| && jobs[rewant[k]].state.Placed())
      && (!stream ==> rewant == [])
    }

    constructor (threads: nat, rescheduleRetries: nat, keepGoing: bool)
      ensures Valid() && jobs == [] && cancels == [] && !stream
    {
      this.threads, this.rescheduleRetries, this.keepGoing := threads, rescheduleRetries, keepGoing;
      jobs, wantable, rewant, cancels, ready := [], [], [], [], [];
      remaining, active, progressed := 0, 0, 0;
      stream, abandoned, stopping := false, false, false;
      inputs := [];
    }

    /** A job changes state (never from Wantable to Wanted, and to a state with no more active jobs). */
    method To(j: JobId, job: Job)
      requires 0 <= j < |jobs| && !jobs[j].state.Done? && Counts()
      requires job.state.Active() ==> jobs[j].state.Active()
      modifies this`jobs, this`wantable, this`ready, this`cancels, this`active, this`remaining, this`progressed
      ensures TheBooks() == Moved(old(TheBooks()), j, job) && Counts()
      ensures remaining == old(remaining) - (if job.state.Done? then 1 else 0)
    {
      hide Total;
      CountsMove(jobs, j, job);
      var was := jobs[j];
      active := active - (if was.state.Active() then 1 else 0) + (if job.state.Active() then 1 else 0);
      jobs := jobs[j := job];
      if was.followed && !job.followed {
        cancels := cancels + [j];
      }
      if job.state.Wantable? && !was.state.Wantable? {
        wantable := wantable + [j];
      }
      if job.state.Assigned? && !was.state.Assigned? {
        ready := ready + [j];
      }
      if job.state.Done? {
        remaining := remaining - 1;
        progressed := progressed + 1;
      }
    }

    /** A Blocked job with nothing left to wait for: offered, or the result it ends with. */
    method Unblock(j: JobId, ghost done: JobId, ghost owed: seq<JobId>, ghost parked: set<JobId>, ghost but: set<JobId>)
      returns (result: Option<JobState>)
      requires GraphOk(jobs, inputs, done, owed) && BooksOk(TheBooks(), parked, but) && Counts()
      requires 0 <= j < |jobs| && jobs[j].state == Blocked(0)
      modifies this`jobs, this`wantable, this`ready, this`cancels, this`active, this`remaining, this`progressed
      ensures GraphOk(jobs, inputs, done, owed) && Counts()
      ensures result.None? <==> old(jobs)[j].failedInput.None? && !stopping && !abandoned
      ensures result.None? ==>
        BooksOk(TheBooks(), parked - {j}, but) && jobs == old(jobs)[j := old(jobs)[j].(state := Wantable)]
      ensures result.Some? ==> BooksOk(TheBooks(), parked, but) && jobs == old(jobs)
      ensures result.Some? ==> result.value == Unblocked(old(jobs)[j].failedInput.Some?, stopping, abandoned)
      ensures cancels == old(cancels) && remaining == old(remaining)
    {
      hide GraphOk, BooksOk, Total;
      if jobs[j].failedInput.Some? {
        return Some(JobState.Done(DependencyFailed, false));
      }
      if stopping {
        return Some(JobState.Done(Cancelled, false));
      }
      if abandoned {
        return Some(JobState.Done(Lost, false));
      }
      GraphOffer(jobs, inputs, done, owed, j);
      MovedOk(TheBooks(), parked, but, j, jobs[j].(state := Wantable), parked - {j}, but);
      To(j, jobs[j].(state := Wantable));
      return None;
    }

    /** One dependant of a job that just ended has an edge less to wait for. */
    method ReleaseOne(done: JobId, owed: seq<JobId>, work: seq<Work>, ghost but: set<JobId>) returns (work': seq<Work>)
      requires owed != [] && InRange(jobs, owed)
      requires GraphOk(jobs, inputs, done, owed) && BooksOk(TheBooks(), WorkIds(work), but + WorkIds(work)) && Counts()
      requires WorkOk(jobs, work)
      requires 0 <= done < |jobs| && jobs[done].state.Done? && done in inputs[owed[0]]
      modifies this`jobs, this`wantable, this`ready, this`cancels, this`active, this`remaining, this`progressed
      ensures GraphOk(jobs, inputs, done, owed[1..]) && BooksOk(TheBooks(), WorkIds(work'), but + WorkIds(work'))
      ensures Counts()
      ensures WorkOk(jobs, work') && NewWork(old(jobs), jobs, TheCause(), work, work')
      ensures cancels == old(cancels) && remaining == old(remaining)
      ensures |jobs| == |old(jobs)| && jobs == old(jobs)[owed[0] := jobs[owed[0]]]
      ensures StillOpen(old(jobs)[owed[0]], jobs[owed[0]])
      ensures ReleasedBy(old(jobs)[owed[0]], jobs[owed[0]], 1, done, Failed(old(jobs)[done]))
      ensures old(jobs)[owed[0]].state.Blocked? || old(jobs)[owed[0]].state.Done?
    {
      hide GraphOk, BooksOk, Total, WorkIds, Moved, StillOpen, Later, NewWork;
      var dep := owed[0];
      GraphOwed(jobs, inputs, done, owed);
      work' := work;
      SameIsOpen(jobs[dep]);
      NoNewWork(jobs, jobs, TheCause(), work);
      if !jobs[dep].state.Blocked? {
        return;
      }
      ReleasedIsOpen(jobs[dep], done, !jobs[done].state.succeeded);
      GraphRelease(jobs, inputs, done, owed);
      var job := Released(jobs[dep], done, !jobs[done].state.succeeded);
      MovedTo(TheBooks(), dep, job);
      if job.state.waiting == 0 {
        MovedOk(TheBooks(), WorkIds(work), but + WorkIds(work), dep, job, WorkIds(work) + {dep}, but + WorkIds(work));
        To(dep, job);
        ghost var jobs1 := jobs;
        work' := UnblockInto(dep, done, owed[1..], work, but);
        NewWorkBlocked(old(jobs), jobs1, jobs, TheCause(), work, work', dep);
      } else {
        MovedOk(TheBooks(), WorkIds(work), but + WorkIds(work), dep, job, WorkIds(work), but + WorkIds(work));
        To(dep, job);
        NoNewWork(old(jobs), jobs, TheCause(), work);
      }
    }

    /** Unblock, with the result queued for settlement if it is one. */
    method UnblockInto(j: JobId, ghost done: JobId, ghost owed: seq<JobId>, work: seq<Work>, ghost but: set<JobId>)
      returns (work': seq<Work>)
      requires GraphOk(jobs, inputs, done, owed) && BooksOk(TheBooks(), WorkIds(work) + {j}, but + WorkIds(work))
      requires Counts()
      requires WorkOk(jobs, work)
      requires 0 <= j < |jobs| && jobs[j].state == Blocked(0)
      modifies this`jobs, this`wantable, this`ready, this`cancels, this`active, this`remaining, this`progressed
      ensures GraphOk(jobs, inputs, done, owed) && BooksOk(TheBooks(), WorkIds(work'), but + WorkIds(work')) && Counts()
      ensures WorkOk(jobs, work') && NewWork(old(jobs), jobs, TheCause(), work, work')
      ensures cancels == old(cancels) && remaining == old(remaining)
      ensures jobs == old(jobs) || jobs == old(jobs)[j := old(jobs)[j].(state := Wantable)]
    {
      hide GraphOk, BooksOk, Total, WorkIds, AllEnded, SomeFailed;
      work' := work;
      ParkedEnds(TheCause(), jobs, done, owed, j);
      var result := Unblock(j, done, owed, WorkIds(work) + {j}, but + WorkIds(work));
      if result.Some? {
        work' := work + [Work(j, result.value)];
        WorkIdsPush(work, Work(j, result.value));
        BooksWeaken(TheBooks(), WorkIds(work) + {j}, but + WorkIds(work), WorkIds(work'), but + WorkIds(work'));
      } else {
        BooksWeaken(TheBooks(), WorkIds(work) + {j} - {j}, but + WorkIds(work), WorkIds(work), but + WorkIds(work));
      }
    }

    method ReleaseDependants(done: JobId, work: seq<Work>, ghost but: set<JobId>) returns (work': seq<Work>)
      requires 0 <= done < |jobs| && jobs[done].state.Done?
      requires GraphOk(jobs, inputs, done, jobs[done].dependants) && InRange(jobs, jobs[done].dependants)
      requires |inputs| == |jobs|
      requires forall k :: 0 <= k < |jobs[done].dependants| ==> done in inputs[jobs[done].dependants[k]]
      requires BooksOk(TheBooks(), WorkIds(work), but + WorkIds(work)) && Counts() && WorkOk(jobs, work)
      modifies this`jobs, this`wantable, this`ready, this`cancels, this`active, this`remaining, this`progressed
      ensures GraphOk(jobs, inputs, done, []) && BooksOk(TheBooks(), WorkIds(work'), but + WorkIds(work')) && Counts()
      ensures WorkOk(jobs, work') && NewWork(old(jobs), jobs, TheCause(), work, work')
      ensures cancels == old(cancels) && remaining == old(remaining)
      ensures AllStillOpen(old(jobs), jobs)
      ensures AllReleased(old(jobs), jobs, old(jobs)[done].dependants, done, Failed(old(jobs)[done]))
    {
      hide GraphOk, BooksOk, Total, WorkIds, Moved, StillOpen, NewWork, AllStillOpen, AllReleased, ReleasedBy;
      work' := work;
      var deps := jobs[done].dependants;
      AllOpenStart(jobs);
      NoNewWork(jobs, jobs, TheCause(), work);
      NoneReleased(jobs, done, Failed(jobs[done]));
      var k := 0;
      assert deps[0..] == deps && deps[..0] == [];
      while k < |deps|
        invariant 0 <= k <= |deps| && |jobs| == |old(jobs)|
        invariant GraphOk(jobs, inputs, done, deps[k..]) && BooksOk(TheBooks(), WorkIds(work'), but + WorkIds(work'))
        invariant Counts()
        invariant WorkOk(jobs, work') && NewWork(old(jobs), jobs, TheCause(), work, work')
        invariant cancels == old(cancels) && remaining == old(remaining)
        invariant AllStillOpen(old(jobs), jobs)
        invariant AllReleased(old(jobs), jobs, deps[..k], done, Failed(old(jobs)[done]))
      {
        ghost var before, work0 := jobs, work';
        AllOpenAt(old(jobs), jobs, done);
        StillOpenSince(old(jobs), jobs);
        assert deps[k..][0] == deps[k] && deps[k..][1..] == deps[k + 1..];
        work' := ReleaseOne(done, deps[k..], work', but);
        AllOpenStep(old(jobs), before, deps[k], jobs[deps[k]]);
        AllOpenStart(before);
        AllOpenStep(before, before, deps[k], jobs[deps[k]]);
        StillOpenSince(before, jobs);
        NewWorkMore(old(jobs), before, TheCause(), jobs, TheCause(), work, work0, work');
        ReleasedMore(old(jobs), before, jobs, deps[..k], deps[k], done, Failed(old(jobs)[done]));
        assert deps[..k + 1] == deps[..k] + [deps[k]];
        k := k + 1;
      }
      assert deps[k..] == [] && deps[..k] == deps;
    }

    /** Queues a cancelled end for each job that neither runs nor has ended. */
    method StopAll(work: seq<Work>, ghost but: set<JobId>) returns (work': seq<Work>)
      requires BooksOk(TheBooks(), WorkIds(work), but + WorkIds(work)) && WorkOk(jobs, work) && |inputs| == |jobs|
      modifies this`stopping
      ensures stopping && Listed(jobs, work')
      ensures BooksOk(TheBooks(), WorkIds(work'), but + WorkIds(work')) && WorkOk(jobs, work')
      ensures NewWork(old(jobs), jobs, TheCause(), work, work')
    {
      hide WorkIds;
      stopping := true;
      work' := work;
      var other := 0;
      while other < |jobs|
        invariant 0 <= other <= |jobs| && stopping
        invariant WorkOk(jobs, work') && NewWork(jobs, jobs, TheCause(), work, work') && WorkIds(work) <= WorkIds(work')
        invariant forall j :: 0 <= j < other && !jobs[j].state.Running? && !jobs[j].state.Done? ==> j in WorkIds(work')
      {
        if !jobs[other].state.Running? && !jobs[other].state.Done? {
          WorkIdsPush(work', Work(other, JobState.Done(Cancelled, false)));
          work' := work' + [Work(other, JobState.Done(Cancelled, false))];
        }
        other := other + 1;
      }
    }

    /** Ends one job and queues what ends with it. */
    method FinishJob(j: JobId, result: JobState, work: seq<Work>, ghost but: set<JobId>) returns (work': seq<Work>)
      requires GraphOk(jobs, inputs, -1, []) && Counts() && WorkOk(jobs, work)
      requires BooksOk(TheBooks(), WorkIds(work) + {j}, but + WorkIds(work) + {j})
      requires 0 <= j < |jobs| && !jobs[j].state.Done? && result.Done?
      modifies this`jobs, this`wantable, this`ready, this`cancels, this`active, this`remaining, this`progressed,
        this`stopping
      ensures GraphOk(jobs, inputs, -1, []) && Counts() && WorkOk(jobs, work')
      ensures BooksOk(TheBooks(), WorkIds(work'), but + WorkIds(work'))
      ensures NewWork(old(jobs), jobs, TheCause(), work, work')
      ensures remaining == old(remaining) - 1 && (old(stopping) ==> stopping)
      ensures (keepGoing ==> stopping == old(stopping))
      ensures (!result.succeeded && !keepGoing ==> stopping) && (stopping && !old(stopping) ==> Listed(jobs, work'))
      ensures AllStillOpen(old(jobs)[j := old(jobs)[j].(state := result, followed := false)], jobs)
      ensures cancels == if old(jobs)[j].followed then old(cancels) + [j] else old(cancels)
    {
      hide GraphOk, BooksOk, Total, WorkIds, StillOpen, Listed, NewWork, AllStillOpen;
      var job := jobs[j].(state := result, followed := false);
      GraphFinish(jobs, inputs, j, job);
      InputsLength(jobs, inputs);
      MovedOk(TheBooks(), WorkIds(work) + {j}, but + WorkIds(work) + {j}, j, job, WorkIds(work), but + WorkIds(work));
      To(j, job);
      ghost var jobs1 := jobs;
      work' := ReleaseDependants(j, work, but);
      NothingOwedNow(jobs, inputs, j);
      FinishedSince(old(jobs), j, result, jobs);
      NewWorkFinish(old(jobs), jobs1, jobs, TheCause(), work, work', j);
      if !result.succeeded && !keepGoing && !stopping {
        ghost var c, work1 := TheCause(), work';
        AllOpenStart(jobs);
        StillOpenSince(jobs, jobs);
        work' := StopAll(work', but);
        NewWorkMore(old(jobs), jobs, c, jobs, TheCause(), work, work1, work');
      }
    }

    /** Ends `first`, and then job after job, as long as one has a reason to end. */
    method Settle(first: JobId, result: JobState, ghost but: set<JobId>)
      requires GraphOk(jobs, inputs, -1, []) && Counts() && BooksOk(TheBooks(), {first}, but + {first})
      requires 0 <= first < |jobs| && !jobs[first].state.Done? && result.Done?
      modifies this`jobs, this`wantable, this`ready, this`cancels, this`active, this`remaining, this`progressed,
        this`stopping
      ensures GraphOk(jobs, inputs, -1, []) && Counts() && BooksOk(TheBooks(), {}, but)
      ensures Settled(old(jobs), old(cancels), jobs, cancels) && Caused(old(jobs), jobs, TheCause(), {first})
      ensures |jobs| == |old(jobs)| && jobs[first].state == result
      ensures (old(stopping) ==> stopping) && (keepGoing ==> stopping == old(stopping))
      ensures Stopped(old(stopping), result)
    {
      hide GraphOk, BooksOk, Total, WorkIds, StillOpen, AllStillOpen, Settled, Listed, Caused, NewWork;
      SettledStart(jobs, cancels);
      CausedStart(jobs, TheCause(), {first});
      ghost var c := TheCause();
      var work := FinishFirst(first, result, but);
      SettledFinish(old(jobs), old(cancels), old(jobs), old(cancels), jobs, first, result);
      CausedFinish(old(jobs), old(jobs), c, jobs, TheCause(), first, first, result);
      AllOpenAt(old(jobs)[first := old(jobs)[first].(state := result, followed := false)], jobs, first);
      while work != []
        invariant GraphOk(jobs, inputs, -1, []) && Counts() && WorkOk(jobs, work)
        invariant BooksOk(TheBooks(), WorkIds(work), but + WorkIds(work))
        invariant Settled(old(jobs), old(cancels), jobs, cancels) && Caused(old(jobs), jobs, TheCause(), {first})
        invariant NewWork(old(jobs), jobs, TheCause(), [], work)
        invariant |jobs| == |old(jobs)| && jobs[first].state == result
        invariant (old(stopping) ==> stopping) && (keepGoing ==> stopping == old(stopping))
        invariant (!result.succeeded && !keepGoing ==> stopping) && (stopping && !old(stopping) ==> Listed(jobs, work))
        decreases remaining, |work|
      {
        var n := |work| - 1;
        var next := work[n];
        WorkIdsPop(work);
        NewWorkPop(old(jobs), jobs, TheCause(), work);
        if jobs[next.job].state.Done? {
          if Listed(jobs, work) {
            ListedPop(jobs, work);
          }
          work := work[..n];
          BooksWeaken(TheBooks(), WorkIds(work) + {next.job}, but + (WorkIds(work) + {next.job}), WorkIds(work),
            but + WorkIds(work));
        } else {
          work := SettleOne(next, work[..n], work, old(jobs), old(cancels), first, result, but);
        }
      }
      NoWork(work);
      BooksWeaken(TheBooks(), WorkIds(work), but + WorkIds(work), {}, but);
      if Listed(jobs, work) {
        NoneListed(jobs, work);
      }
    }

    /** Ends the next job of a settlement. */
    method SettleOne(next: Work, work: seq<Work>, ghost work0: seq<Work>, ghost before: seq<Job>,
                     ghost cancels0: seq<JobId>, ghost first: JobId, ghost result: JobState, ghost but: set<JobId>)
      returns (work': seq<Work>)
      requires GraphOk(jobs, inputs, -1, []) && Counts() && WorkOk(jobs, work0) && work0 == work + [next]
      requires BooksOk(TheBooks(), WorkIds(work0), but + WorkIds(work0)) && WorkIds(work0) == WorkIds(work) + {next.job}
      requires Settled(before, cancels0, jobs, cancels) && Caused(before, jobs, TheCause(), {first})
      requires NewWork(before, jobs, TheCause(), [], work0) && NewWork(before, jobs, TheCause(), [], work)
      requires |jobs| == |before| && 0 <= first < |jobs| && jobs[first].state == result && result.Done?
      requires !jobs[next.job].state.Done?
      modifies this`jobs, this`wantable, this`ready, this`cancels, this`active, this`remaining, this`progressed,
        this`stopping
      ensures GraphOk(jobs, inputs, -1, []) && Counts() && WorkOk(jobs, work')
      ensures BooksOk(TheBooks(), WorkIds(work'), but + WorkIds(work'))
      ensures Settled(before, cancels0, jobs, cancels) && Caused(before, jobs, TheCause(), {first})
      ensures NewWork(before, jobs, TheCause(), [], work')
      ensures |jobs| == |old(jobs)| && jobs[first].state == result && remaining == old(remaining) - 1
      ensures (old(stopping) ==> stopping) && (keepGoing ==> stopping == old(stopping))
      ensures stopping && (!old(stopping) || Listed(old(jobs), work0)) ==> Listed(jobs, work')
    {
      hide GraphOk, BooksOk, Total, WorkIds, StillOpen, AllStillOpen, Settled, Listed, Caused, NewWork;
      ghost var c := TheCause();
      assert work0[|work|] == next && work0[..|work|] == work;
      BooksWeaken(TheBooks(), WorkIds(work0), but + WorkIds(work0),
        WorkIds(work) + {next.job}, but + WorkIds(work) + {next.job});
      work' := FinishJob(next.job, next.result, work, but);
      NewWorkGrows(old(jobs), jobs, TheCause(), work, work');
      if Listed(old(jobs), work0) {
        ListedFinish(old(jobs), jobs, work0, next.result, work');
      }
      NewWorkAt(before, old(jobs), c, work0);
      SettledSince(before, cancels0, old(jobs), old(cancels));
      FinishedSince(old(jobs), next.job, next.result, jobs);
      NewWorkMore(before, old(jobs), c, jobs, TheCause(), [], work, work');
      SettledFinish(before, cancels0, old(jobs), old(cancels), jobs, next.job, next.result);
      CausedFinish(before, old(jobs), c, jobs, TheCause(), first, next.job, next.result);
      AllOpenAt(old(jobs)[next.job := old(jobs)[next.job].(state := next.result, followed := false)], jobs, first);
    }

    /** Without keepGoing a failure stops the run: what does not run ends with it. */
    ghost predicate Stopped(before: bool, result: JobState)
      reads this
      requires result.Done?
    {
      && (!result.succeeded && !keepGoing ==> stopping)
      && (stopping && !before ==> forall j :: 0 <= j < |jobs| ==> jobs[j].state.Running? || jobs[j].state.Done?)
    }

    method FinishFirst(first: JobId, result: JobState, ghost but: set<JobId>) returns (work: seq<Work>)
      requires GraphOk(jobs, inputs, -1, []) && Counts() && BooksOk(TheBooks(), {first}, but + {first})
      requires 0 <= first < |jobs| && !jobs[first].state.Done? && result.Done?
      modifies this`jobs, this`wantable, this`ready, this`cancels, this`active, this`remaining, this`progressed,
        this`stopping
      ensures GraphOk(jobs, inputs, -1, []) && Counts() && WorkOk(jobs, work)
      ensures BooksOk(TheBooks(), WorkIds(work), but + WorkIds(work))
      ensures NewWork(old(jobs), jobs, TheCause(), [], work)
      ensures (old(stopping) ==> stopping) && (keepGoing ==> stopping == old(stopping))
      ensures (!result.succeeded && !keepGoing ==> stopping) && (stopping && !old(stopping) ==> Listed(jobs, work))
      ensures AllStillOpen(old(jobs)[first := old(jobs)[first].(state := result, followed := false)], jobs)
      ensures cancels == if old(jobs)[first].followed then old(cancels) + [first] else old(cancels)
    {
      hide GraphOk, BooksOk, Total, StillOpen, WorkIds, Listed;
      NoWork([]);
      BooksWeaken(TheBooks(), {first}, but + {first}, WorkIds([]) + {first}, but + WorkIds([]) + {first});
      work := FinishJob(first, result, [], but);
    }

    /** Waits for nothing: offered, or ended at once. */
    method Release(j: JobId)
      requires GraphOk(jobs, inputs, -1, []) && Counts() && BooksOk(TheBooks(), {j}, {})
      requires 0 <= j < |jobs| && jobs[j].state == Blocked(0)
      modifies this`jobs, this`wantable, this`ready, this`cancels, this`active, this`remaining, this`progressed,
        this`stopping
      ensures GraphOk(jobs, inputs, -1, []) && Counts() && BooksOk(TheBooks(), {}, {})
      ensures old(jobs)[j].failedInput.None? && !old(stopping) && !abandoned ==>
        jobs == old(jobs)[j := old(jobs)[j].(state := Wantable)] && cancels == old(cancels)
      ensures !(old(jobs)[j].failedInput.None? && !old(stopping) && !abandoned) ==>
        Settled(old(jobs), old(cancels), jobs, cancels) && Caused(old(jobs), jobs, TheCause(), {j})
      ensures (old(stopping) ==> stopping) && (keepGoing ==> stopping == old(stopping))
      ensures |jobs| == |old(jobs)| && jobs[j].state ==
        Unblocked(old(jobs)[j].failedInput.Some?, old(stopping), abandoned)
    {
      hide GraphOk, BooksOk, Total, Settled, Caused;
      var result := Unblock(j, -1, [], {j}, {});
      if result.Some? {
        BooksWeaken(TheBooks(), {j}, {}, {j}, {} + {j});
        Settle(j, result.value, {});
      } else {
        BooksWeaken(TheBooks(), {j} - {j}, {}, {}, {});
      }
    }

    // ------------------------------------------------------ adding jobs

    /** A Blocked job gets one more input. */
    method AddInput(j: JobId, input: JobId, ghost parked: set<JobId>)
      requires GraphOk(jobs, inputs, -1, []) && BooksOk(TheBooks(), parked, {}) && Counts()
      requires 0 <= j < |jobs| && 0 <= input < |jobs| && jobs[j].state.Blocked?
      requires jobs[j].followed ==> jobs[input].state.Done?
      modifies this`jobs, this`inputs
      ensures jobs == InputAdded(old(jobs), j, input)
      ensures |old(inputs)| == |old(jobs)| && inputs == old(inputs)[j := old(inputs)[j] + [input]]
      ensures GraphOk(jobs, inputs, -1, []) && Counts()
      ensures BooksOk(TheBooks(), if old(jobs)[input].state.Done? then parked else parked - {j}, {})
    {
      hide GraphOk, BooksOk, Total;
      GraphAddInput(jobs, inputs, j, input);
      BooksAddInput(TheBooks(), parked, {}, j, input);
      CountsAddInput(jobs, j, input);
      if !jobs[input].state.Done? {
        jobs := jobs[input := jobs[input].(dependants := jobs[input].dependants + [j])];
        jobs := jobs[j := jobs[j].(state := Blocked(jobs[j].state.waiting + 1))];
      } else if !jobs[input].state.succeeded {
        jobs := jobs[j := jobs[j].(failedInput := Some(input))];
      }
      inputs := inputs[j := inputs[j] + [input]];
    }

    /** A new job, which may only name jobs that exist as its inputs. */
    method Add(prio: real, ins: seq<JobId>) returns (j: JobId)
      requires Valid() && InRange(jobs, ins)
      modifies this
      ensures Valid() && j == |old(jobs)| && |jobs| == |old(jobs)| + 1 == |inputs|
      ensures inputs == old(inputs) + [ins]
      ensures FollowStep(old(jobs), old(cancels), jobs, cancels)
      ensures jobs[j].prio == prio
      ensures forall i :: 0 <= i < j ==> jobs[i].prio == old(jobs)[i].prio && jobs[i].bounced == old(jobs)[i].bounced
      ensures if AllEnded(old(jobs), ins)
        then jobs[j].state == Unblocked(SomeFailed(old(jobs), ins), old(stopping), abandoned)
        else jobs[j].state.Blocked?
      ensures Caused(old(jobs) + [jobs[j]], jobs, TheCause(), {})
      ensures forall i :: 0 <= i < j && old(jobs)[i].state.Running? ==>
        jobs[i] == old(jobs)[i].(dependants := jobs[i].dependants)
      ensures stream == old(stream) && abandoned == old(abandoned)
    {
      hide GraphOk, BooksOk, Total, Settled, FollowStep, AllEnded, SomeFailed, Caused;
      j := Append(prio);
      AddInputs(j, ins);
      FollowStepSame(old(jobs), jobs, cancels);
      WaitsForInputs(jobs, inputs, j);
      SameEnds(old(jobs), jobs, ins);
      ghost var jobs0 := jobs;
      if jobs[j].state.waiting == 0 {
        Release(j);
        ReleaseFollowStep(jobs0, old(cancels), jobs, cancels, j);
        ReleaseKeeps(jobs0, old(cancels), jobs, cancels, j);
        FollowStepTrans(old(jobs), old(cancels), jobs0, old(cancels), jobs, cancels);
      } else {
        BooksWeaken(TheBooks(), {j}, {}, {}, {});
      }
      AddCauses(old(jobs), jobs0, jobs, TheCause(), j);
      RunningStays(jobs0, old(cancels), jobs, cancels, TheCause(), j);
    }

    method Append(prio: real) returns (j: JobId)
      requires Valid()
      modifies this`jobs, this`inputs, this`remaining
      ensures GraphOk(jobs, inputs, -1, []) && BooksOk(TheBooks(), {j}, {}) && Counts()
      ensures j == |old(jobs)| && jobs == old(jobs) + [Job(Blocked(0), prio, [], None, 0, false)]
      ensures |inputs| == |jobs| && inputs == old(inputs) + [[]]
    {
      hide GraphOk, BooksOk, Total;
      j := |jobs|;
      var job := Job(Blocked(0), prio, [], None, 0, false);
      GraphAppend(jobs, inputs, job);
      BooksAppend(TheBooks(), job);
      InputsLength(jobs, inputs);
      jobs := jobs + [job];
      inputs := inputs + [[]];
      remaining := remaining + 1;
    }

    method AddInputs(j: JobId, ins: seq<JobId>)
      requires GraphOk(jobs, inputs, -1, []) && BooksOk(TheBooks(), {j}, {}) && Counts()
      requires 0 <= j < |jobs| == |inputs| && jobs[j].state.Blocked? && !jobs[j].followed && inputs[j] == []
      requires jobs[j].failedInput.None?
      requires forall k :: 0 <= k < |ins| ==> 0 <= ins[k] < |jobs| && ins[k] != j
      modifies this`jobs, this`inputs
      ensures GraphOk(jobs, inputs, -1, []) && BooksOk(TheBooks(), {j}, {}) && Counts()
      ensures |jobs| == |old(jobs)| && jobs[j].state.Blocked? && inputs == old(inputs)[j := ins]
      ensures OnlyLinked(old(jobs), jobs, j, ins)
    {
      hide GraphOk, BooksOk, Total, OnlyLinked;
      LinkNone(jobs, j);
      NotFollowedYet(jobs, jobs, j, []);
      var k := 0;
      while k < |ins|
        invariant 0 <= k <= |ins|
        invariant GraphOk(jobs, inputs, -1, []) && BooksOk(TheBooks(), {j}, {}) && Counts()
        invariant |jobs| == |old(jobs)| && jobs[j].state.Blocked? && inputs == old(inputs)[j := ins[..k]]
        invariant OnlyLinked(old(jobs), jobs, j, ins[..k]) && !jobs[j].followed
      {
        LinkOne(old(jobs), jobs, j, ins[..k], ins[k]);
        NotFollowedYet(old(jobs), InputAdded(jobs, j, ins[k]), j, ins[..k] + [ins[k]]);
        AddInput(j, ins[k], {j});
        BooksWeaken(TheBooks(), if jobs[ins[k]].state.Done? then {j} else {j} - {j}, {}, {j}, {});
        assert ins[..k + 1] == ins[..k] + [ins[k]];
        k := k + 1;
      }
      assert ins[..k] == ins;
    }

    /** A running job turned out to lack `input`: it waits for it. */
    method BlockOn(j: JobId, input: JobId)
      requires Valid() && 0 <= j < |jobs| && 0 <= input < |jobs|
      modifies this
      ensures Valid() && |jobs| == |old(jobs)| == |inputs| == |old(inputs)|
      ensures FollowStep(old(jobs), old(cancels), jobs, cancels)
      ensures !old(jobs)[j].state.Running? ==> jobs == old(jobs) && inputs == old(inputs)
      ensures old(jobs)[j].state.Running? ==> inputs == old(inputs)[j := old(inputs)[j] + [input]]
      ensures old(jobs)[j].state.Running? && !old(jobs)[input].state.Done? ==>
        jobs[j].state == Blocked(1) && jobs == Waiting(old(jobs), j, input)
      ensures old(jobs)[j].state.Running? && old(jobs)[input].state.Done? ==>
        && jobs[j].state == Unblocked(Failed(old(jobs)[input]), old(stopping), abandoned)
        && (jobs[j].followed <==> old(jobs)[j].followed && jobs[j].state.Wantable?)
        && Caused(old(jobs), jobs, TheCause(), {j}) && OthersLater(old(jobs), jobs, j)
      ensures stream == old(stream) && abandoned == old(abandoned)
    {
      hide GraphOk, BooksOk, Total, Settled, FollowStep, Waiting, Caused, OthersLater;
      InputsLength(jobs, inputs);
      FollowStepSame(jobs, jobs, cancels);
      if !jobs[j].state.Running? {
        return;
      }
      if jobs[input].state.Done? {
        BlockOnDone(j, input);
      } else {
        BlockOnOpen(j, input);
      }
    }

    method BlockOnOpen(j: JobId, input: JobId)
      requires Valid() && 0 <= j < |jobs| && 0 <= input < |jobs|
      requires jobs[j].state.Running? && !jobs[input].state.Done?
      modifies this
      ensures Valid() && |jobs| == |old(jobs)| == |inputs| == |old(inputs)|
      ensures inputs == old(inputs)[j := old(inputs)[j] + [input]]
      ensures FollowStep(old(jobs), old(cancels), jobs, cancels)
      ensures jobs == Waiting(old(jobs), j, input) && jobs[j].state == Blocked(1)
      ensures stream == old(stream) && abandoned == old(abandoned)
    {
      hide GraphOk, BooksOk, Total, FollowStep;
      GiveUpPlace(j);
      ghost var jobs1 := jobs;
      AddInput(j, input, {j});
      BooksWeaken(TheBooks(), {j} - {j}, {}, {}, {});
      FollowStepSame(jobs1, jobs, cancels);
      FollowStepTrans(old(jobs), old(cancels), jobs1, cancels, jobs, cancels);
    }

    /** A running job is no longer followed, and about to wait. */
    method GiveUpPlace(j: JobId)
      requires Valid() && 0 <= j < |jobs| && jobs[j].state.Running?
      modifies this`jobs, this`wantable, this`ready, this`cancels, this`active, this`remaining, this`progressed
      ensures GraphOk(jobs, inputs, -1, []) && BooksOk(TheBooks(), {j}, {}) && Counts()
      ensures jobs == old(jobs)[j := old(jobs)[j].(state := Blocked(0), followed := false)]
      ensures FollowStep(old(jobs), old(cancels), jobs, cancels)
    {
      hide GraphOk, BooksOk, Total, FollowStep;
      var job := jobs[j].(state := Blocked(0), followed := false);
      GraphMove(jobs, inputs, j, job);
      MovedOk(TheBooks(), {}, {}, j, job, {j}, {});
      To(j, job);
      UnfollowStep(old(jobs), old(cancels), jobs, cancels, j);
    }

    method BlockOnDone(j: JobId, input: JobId)
      requires Valid() && 0 <= j < |jobs| && 0 <= input < |jobs|
      requires jobs[j].state.Running? && jobs[input].state.Done?
      modifies this
      ensures Valid() && |jobs| == |old(jobs)| == |inputs| == |old(inputs)|
      ensures inputs == old(inputs)[j := old(inputs)[j] + [input]]
      ensures FollowStep(old(jobs), old(cancels), jobs, cancels)
      ensures jobs[j].state == Unblocked(Failed(old(jobs)[input]), old(stopping), abandoned)
      ensures jobs[j].followed <==> old(jobs)[j].followed && jobs[j].state.Wantable?
      ensures Caused(old(jobs), jobs, TheCause(), {j}) && OthersLater(old(jobs), jobs, j)
      ensures stream == old(stream) && abandoned == old(abandoned)
    {
      hide GraphOk, BooksOk, Total, Settled, FollowStep, Caused, OthersLater;
      ParkWith(j, input);
      ghost var jobs2 := jobs;
      Release(j);
      ReleaseFollowStep(jobs2, old(cancels), jobs, cancels, j);
      ReleaseCauses(old(jobs), jobs2, old(cancels), jobs, cancels, TheCause(), j);
      FollowStepTrans(old(jobs), old(cancels), jobs2, old(cancels), jobs, cancels);
      BooksFacts(TheBooks());
    }

    /** The running job waits for nothing, with an ended input more. */
    method ParkWith(j: JobId, input: JobId)
      requires Valid() && 0 <= j < |jobs| && 0 <= input < |jobs|
      requires jobs[j].state.Running? && jobs[input].state.Done?
      modifies this
      ensures GraphOk(jobs, inputs, -1, []) && BooksOk(TheBooks(), {j}, {}) && Counts() && rewant == []
      ensures |jobs| == |old(jobs)| == |inputs| == |old(inputs)|
      ensures inputs == old(inputs)[j := old(inputs)[j] + [input]]
      ensures jobs == old(jobs)[j := jobs[j]] && jobs[j].state == Blocked(0)
      ensures jobs[j].followed == old(jobs)[j].followed
      ensures jobs[j].failedInput.Some? <==> Failed(old(jobs)[input])
      ensures FollowStep(old(jobs), old(cancels), jobs, cancels) && cancels == old(cancels)
      ensures stream == old(stream) && abandoned == old(abandoned) && stopping == old(stopping)
    {
      hide GraphOk, BooksOk, Total, FollowStep;
      var job := jobs[j].(state := Blocked(0));
      GraphMove(jobs, inputs, j, job);
      MovedOk(TheBooks(), {}, {}, j, job, {j}, {});
      To(j, job);
      AddInput(j, input, {j});
      FollowStepSame(old(jobs), jobs, cancels);
    }

    // --------------------------------------------------- scheduler answers

    /** Ends a job that is not blocked. */
    method End(j: JobId, result: JobState)
      requires Valid() && 0 <= j < |jobs| && !jobs[j].state.Done? && result.Done?
      modifies this
      ensures Valid() && Settled(old(jobs), old(cancels), jobs, cancels) && |jobs| == |old(jobs)|
      ensures jobs[j].state == result
      ensures Caused(old(jobs), jobs, TheCause(), {j}) && inputs == old(inputs)
      ensures FollowStep(old(jobs), old(cancels), jobs, cancels)
      ensures stream == old(stream) && abandoned == old(abandoned) && (old(stopping) ==> stopping)
      ensures Stopped(old(stopping), result)
    {
      hide GraphOk, BooksOk, Total, Settled, FollowStep, Caused;
      BooksWeaken(TheBooks(), {}, {}, {j}, {} + {j});
      Settle(j, result, {});
      SettledFollowStep(old(jobs), old(cancels), jobs, cancels);
    }

    /** A change of an unfinished job's state that blocks and offers nothing. */
    method Change(j: JobId, state: JobState)
      requires Valid() && 0 <= j < |jobs| && jobs[j].state.Active()
      requires state.Active() && (jobs[j].state.Offerable() || !state.Offerable())
      modifies this
      ensures Valid() && jobs == old(jobs)[j := old(jobs)[j].(state := state)] && cancels == old(cancels)
      ensures ready == if state.Assigned? && !old(jobs)[j].state.Assigned? then old(ready) + [j] else old(ready)
      ensures FollowStep(old(jobs), old(cancels), jobs, cancels)
      ensures inputs == old(inputs) && stream == old(stream) && abandoned == old(abandoned) && stopping == old(stopping)
    {
      hide GraphOk, BooksOk, Total, FollowStep;
      BooksFacts(TheBooks());
      var job := jobs[j].(state := state);
      GraphMove(jobs, inputs, j, job);
      MovedOk(TheBooks(), {}, {}, j, job, {}, {});
      To(j, job);
      FollowStepSame(old(jobs), jobs, cancels);
    }

    method OnAssigned(j: JobId, at: Placement)
      requires Valid() && 0 <= j < |jobs|
      modifies this
      ensures Valid() && FollowStep(old(jobs), old(cancels), jobs, cancels)
      ensures jobs == old(jobs)[j := AfterAssigned(old(jobs)[j], at)]
      ensures inputs == old(inputs) && stream == old(stream) && abandoned == old(abandoned)
    {
      hide GraphOk, BooksOk, Total, FollowStep;
      FollowStepSame(jobs, jobs, cancels);
      if at.addr == "" {
        return;
      }
      if jobs[j].state.Running? {
        if at.addr != jobs[j].state.at.addr {
          Change(j, jobs[j].state.(redirect := Some(at)));
        }
        return;
      }
      if jobs[j].state.Assigned? || jobs[j].state.Wanted? {
        if jobs[j].state.Wanted? {
          progressed := progressed + 1;
        }
        Change(j, JobState.Assigned(at));
      }
    }

    method OnCached(j: JobId)
      requires Valid() && 0 <= j < |jobs|
      modifies this
      ensures Valid() && FollowStep(old(jobs), old(cancels), jobs, cancels)
      ensures if old(jobs)[j].state.Wanted?
        then Settled(old(jobs), old(cancels), jobs, cancels) && jobs[j].state == JobState.Done(FromCache, true)
             && Caused(old(jobs), jobs, TheCause(), {j})
        else jobs == old(jobs)
      ensures inputs == old(inputs) && stream == old(stream) && abandoned == old(abandoned)
    {
      hide GraphOk, BooksOk, Total, FollowStep, Settled, Caused;
      FollowStepSame(jobs, jobs, cancels);
      if jobs[j].state.Wanted? {
        End(j, JobState.Done(FromCache, true));
      }
    }

    /** True if the job was not known to be unplaceable before. */
    method OnUnplaceable(j: JobId, now: int) returns (first: bool)
      requires Valid() && 0 <= j < |jobs|
      modifies this
      ensures Valid() && FollowStep(old(jobs), old(cancels), jobs, cancels)
      ensures first == (old(jobs)[j].state == Wanted(None))
      ensures jobs == if first then old(jobs)[j := old(jobs)[j].(state := Wanted(Some(now)))] else old(jobs)
      ensures inputs == old(inputs) && stream == old(stream) && abandoned == old(abandoned)
    {
      hide GraphOk, BooksOk, Total, FollowStep;
      FollowStepSame(jobs, jobs, cancels);
      first := jobs[j].state.Wanted? && jobs[j].state.unplaceableSince.None?;
      if first {
        Change(j, Wanted(Some(now)));
      }
    }

    method OnPlaceable(j: JobId)
      requires Valid() && 0 <= j < |jobs|
      modifies this
      ensures Valid() && FollowStep(old(jobs), old(cancels), jobs, cancels)
      ensures jobs ==
        if old(jobs)[j].state.Wanted? then old(jobs)[j := old(jobs)[j].(state := Wanted(None))] else old(jobs)
      ensures inputs == old(inputs) && stream == old(stream) && abandoned == old(abandoned)
    {
      hide GraphOk, BooksOk, Total, FollowStep;
      FollowStepSame(jobs, jobs, cancels);
      if jobs[j].state.Wanted? {
        Change(j, Wanted(None));
      }
    }

    /** Ends the overdue jobs; nothing else is due before `wake`. */
    method Reap(now: int, grace: int) returns (wake: int)
      requires Valid()
      modifies this
      ensures Valid() && FollowStep(old(jobs), old(cancels), jobs, cancels) && AllLater(old(jobs), jobs)
      ensures forall j :: 0 <= j < |jobs| && Overdue(old(jobs)[j], now, grace) ==>
        || jobs[j].state == JobState.Done(Unplaceable, false)
        || (!keepGoing && jobs[j].state == JobState.Done(Cancelled, false))
      ensures Caused(old(jobs), jobs, TheCause(), Late(old(jobs), now, grace)) && inputs == old(inputs)
      ensures wake <= now + grace && (grace > 0 ==> wake > now)
      ensures forall j :: 0 <= j < |jobs| && Timed(jobs[j]) ==> now < Due(jobs[j], grace) && wake <= Due(jobs[j], grace)
      ensures stream == old(stream) && abandoned == old(abandoned)
    {
      hide GraphOk, BooksOk, Total, FollowStep, Settled, Caused, AllLater, Pending;
      ghost var late := Late(jobs, now, grace);
      FollowStepSame(jobs, jobs, cancels);
      LaterStart(jobs);
      CausedStart(jobs, TheCause(), late);
      PendingStart(jobs, late, Unplaceable, stopping);
      wake := now + grace;
      var j := 0;
      while j < |jobs|
        invariant 0 <= j <= |jobs| == |old(jobs)| && inputs == old(inputs)
        invariant Valid() && FollowStep(old(jobs), old(cancels), jobs, cancels) && AllLater(old(jobs), jobs)
        invariant Caused(old(jobs), jobs, TheCause(), late) && Pending(old(jobs), jobs, late, Unplaceable, stopping)
        invariant forall k :: 0 <= k < j && Timed(jobs[k]) ==> now < Due(jobs[k], grace) && wake <= Due(jobs[k], grace)
        invariant wake <= now + grace && (grace > 0 ==> wake > now)
        invariant stream == old(stream) && abandoned == old(abandoned)
      {
        if Timed(jobs[j]) {
          if Due(jobs[j], grace) > now {
            wake := if Due(jobs[j], grace) < wake then Due(jobs[j], grace) else wake;
          } else {
            WantedBefore(old(jobs), jobs, j);
            ReapOne(j, old(jobs), old(cancels), late);
          }
        }
        j := j + 1;
      }
      PendingEnd(old(jobs), jobs, late, Unplaceable, stopping);
      forall k | 0 <= k < |jobs| && Overdue(old(jobs)[k], now, grace)
        ensures jobs[k] != old(jobs)[k]
      {
        assert Timed(old(jobs)[k]);
      }
    }

    method ReapOne(j: JobId, ghost before: seq<Job>, ghost cancels0: seq<JobId>, ghost late: set<JobId>)
      requires Valid() && 0 <= j < |jobs| == |before| && jobs[j].state.Wanted? && j in late
      requires FollowStep(before, cancels0, jobs, cancels) && AllLater(before, jobs)
      requires Caused(before, jobs, TheCause(), late) && Pending(before, jobs, late, Unplaceable, stopping)
      modifies this
      ensures Valid() && FollowStep(before, cancels0, jobs, cancels) && AllLater(before, jobs)
      ensures Caused(before, jobs, TheCause(), late) && Pending(before, jobs, late, Unplaceable, stopping)
      ensures |jobs| == |before| && jobs[j].state.Done? && inputs == old(inputs)
      ensures forall k :: 0 <= k < |jobs| && jobs[k].state.Wanted? ==> jobs[k] == old(jobs)[k]
      ensures stream == old(stream) && abandoned == old(abandoned)
    {
      hide GraphOk, BooksOk, Total, FollowStep, Settled, Caused, AllLater, Pending;
      ghost var jobs0, cancels1, c := jobs, cancels, TheCause();
      End(j, JobState.Done(Unplaceable, false));
      FollowStepTrans(before, cancels0, jobs0, cancels1, jobs, cancels);
      SettledSince(jobs0, cancels1, jobs, cancels);
      LaterSince(before, jobs0);
      CausedMore(before, jobs0, c, jobs, TheCause(), late, j);
      PendingStep(before, jobs0, jobs, cancels1, cancels, TheCause(), late, j, Unplaceable, c.stopping);
      SettledLater(before, jobs0, cancels1, jobs, cancels);
    }

    // ------------------------------------------------------ build threads

    /** The next assigned job, now running. */
    method Next() returns (next: Option<(JobId, Placement)>)
      requires Valid()
      modifies this
      ensures Valid() && FollowStep(old(jobs), old(cancels), jobs, cancels)
      ensures next.None? ==> jobs == old(jobs) && forall j :: 0 <= j < |jobs| ==> !jobs[j].state.Assigned?
      ensures next.Some? ==> var (j, at) := next.value;
        && 0 <= j < |old(jobs)| && old(jobs)[j].state == JobState.Assigned(at)
        && jobs == old(jobs)[j := old(jobs)[j].(state := JobState.Running(at, None))]
      ensures inputs == old(inputs) && stream == old(stream) && abandoned == old(abandoned)
    {
      hide GraphOk, BooksOk, Total, FollowStep;
      FollowStepSame(jobs, jobs, cancels);
      while ready != []
        invariant Valid() && jobs == old(jobs) && cancels == old(cancels)
        invariant inputs == old(inputs) && stream == old(stream) && abandoned == old(abandoned)
        decreases |ready|
      {
        BooksFacts(TheBooks());
        var j := ready[0];
        if jobs[j].state.Assigned? {
          var at := jobs[j].state.at;
          Change(j, JobState.Running(at, None));
          ReadyPop(TheBooks());
          ready := ready[1..];
          return Some((j, at));
        }
        ReadyPop(TheBooks());
        ready := ready[1..];
      }
      NoneReady(TheBooks());
      return None;
    }

    method Finished(j: JobId, succeeded: bool)
      requires Valid() && 0 <= j < |jobs|
      modifies this
      ensures Valid() && FollowStep(old(jobs), old(cancels), jobs, cancels)
      ensures if old(jobs)[j].state.Running?
        then Settled(old(jobs), old(cancels), jobs, cancels) && jobs[j].state == JobState.Done(Built, succeeded)
             && Caused(old(jobs), jobs, TheCause(), {j}) && Stopped(old(stopping), jobs[j].state)
        else jobs == old(jobs)
      ensures inputs == old(inputs) && stream == old(stream) && abandoned == old(abandoned)
    {
      hide GraphOk, BooksOk, Total, FollowStep, Settled, Caused;
      FollowStepSame(jobs, jobs, cancels);
      if jobs[j].state.Running? {
        End(j, JobState.Done(Built, succeeded));
      }
    }

    /** The worker would not or could not build it: follow the redirect, or ask again. */
    method Bounced(j: JobId)
      requires Valid() && 0 <= j < |jobs|
      modifies this
      ensures Valid() && FollowStep(old(jobs), old(cancels), jobs, cancels) && |jobs| == |old(jobs)|
      ensures !old(jobs)[j].state.Running? ==> jobs == old(jobs)
      ensures old(jobs)[j].state.Running? ==>
        jobs[j].state ==
        if old(jobs)[j].state.redirect.Some? then JobState.Assigned(old(jobs)[j].state.redirect.value)
        else if old(jobs)[j].bounced >= rescheduleRetries then JobState.Done(GaveUp, false)
        else Unblocked(false, old(stopping), abandoned)
      ensures old(jobs)[j].state.Running? ==> (jobs[j].followed <==> old(jobs)[j].followed && !jobs[j].state.Done?)
      ensures Caused(old(jobs), jobs, TheCause(), {j}) && OthersLater(old(jobs), jobs, j)
      ensures inputs == old(inputs) && stream == old(stream) && abandoned == old(abandoned)
    {
      hide GraphOk, BooksOk, Total, FollowStep, Settled, Caused, OthersLater;
      FollowStepSame(jobs, jobs, cancels);
      OthersSame(jobs, jobs, TheCause(), j);
      if !jobs[j].state.Running? {
        return;
      }
      if jobs[j].state.redirect.Some? {
        Change(j, JobState.Assigned(jobs[j].state.redirect.value));
        OthersSame(old(jobs), jobs, TheCause(), j);
        return;
      }
      CountBounce(j);
      ghost var jobs1 := jobs;
      FollowStepSame(old(jobs), jobs, cancels);
      if jobs[j].bounced > rescheduleRetries {
        End(j, JobState.Done(GaveUp, false));
        ReleaseCauses(old(jobs), jobs1, old(cancels), jobs, cancels, TheCause(), j);
      } else {
        Ask(j);
        OthersMore(old(jobs), jobs1, jobs, TheCause(), j);
      }
      BooksFacts(TheBooks());
      FollowStepTrans(old(jobs), old(cancels), jobs1, old(cancels), jobs, cancels);
    }

    method CountBounce(j: JobId)
      requires Valid() && 0 <= j < |jobs| && jobs[j].state.Running?
      modifies this
      ensures Valid() && jobs == old(jobs)[j := old(jobs)[j].(bounced := old(jobs)[j].bounced + 1)]
      ensures cancels == old(cancels)
      ensures inputs == old(inputs) && stream == old(stream) && abandoned == old(abandoned) && stopping == old(stopping)
    {
      hide GraphOk, BooksOk, Total;
      var job := jobs[j].(bounced := jobs[j].bounced + 1);
      GraphMove(jobs, inputs, j, job);
      MovedOk(TheBooks(), {}, {}, j, job, {}, {});
      To(j, job);
    }

    /** A running job goes back to being offered. */
    method Ask(j: JobId)
      requires Valid() && 0 <= j < |jobs| && jobs[j].state.Running?
      modifies this
      ensures Valid() && FollowStep(old(jobs), old(cancels), jobs, cancels) && |jobs| == |old(jobs)|
      ensures jobs[j].state == Unblocked(false, old(stopping), abandoned)
      ensures !jobs[j].state.Done? ==> jobs == old(jobs)[j := old(jobs)[j].(state := Wantable)]
      ensures Caused(old(jobs), jobs, TheCause(), {j}) && OthersLater(old(jobs), jobs, j)
      ensures inputs == old(inputs) && stream == old(stream) && abandoned == old(abandoned)
    {
      hide GraphOk, BooksOk, Total, FollowStep, Settled, Caused, OthersLater;
      var job := jobs[j].(state := Blocked(0));
      GraphMove(jobs, inputs, j, job);
      MovedOk(TheBooks(), {}, {}, j, job, {j}, {});
      To(j, job);
      FollowStepSame(old(jobs), jobs, cancels);
      ghost var jobs1 := jobs;
      Release(j);
      ReleaseFollowStep(jobs1, old(cancels), jobs, cancels, j);
      ReleaseCauses(old(jobs), jobs1, old(cancels), jobs, cancels, TheCause(), j);
      FollowStepTrans(old(jobs), old(cancels), jobs1, old(cancels), jobs, cancels);
    }

    /** Ends every job that has no place yet; those that have one go on. */
    method Abandon()
      requires Valid()
      modifies this
      ensures Valid() && abandoned && FollowStep(old(jobs), old(cancels), jobs, cancels)
      ensures AllLater(old(jobs), jobs) && stream == old(stream) && inputs == old(inputs)
      ensures forall j :: 0 <= j < |jobs| && old(jobs)[j].state.Offerable() ==>
        jobs[j].state == JobState.Done(Lost, false) || (!keepGoing && jobs[j].state == JobState.Done(Cancelled, false))
      ensures forall j ::
        0 <= j < |jobs| && (old(jobs)[j].state.Running? || (keepGoing && old(jobs)[j].state.Placed())) ==>
          jobs[j] == old(jobs)[j]
      ensures Caused(old(jobs), jobs, TheCause(), Offered(old(jobs)))
    {
      hide GraphOk, BooksOk, Total, FollowStep, Settled, Caused, AllLater, Pending;
      ghost var offered := Offered(jobs);
      FollowStepSame(jobs, jobs, cancels);
      LaterStart(jobs);
      QuietBut(TheBooks());
      abandoned := true;
      CausedStart(jobs, TheCause(), offered);
      PendingStart(jobs, offered, Lost, stopping);
      var j := 0;
      while j < |jobs|
        invariant 0 <= j <= |jobs| == |old(jobs)| && inputs == old(inputs)
        invariant GraphOk(jobs, inputs, -1, []) && BooksOk(TheBooks(), {}, From(j, |jobs|)) && Counts() && rewant == []
        invariant FollowStep(old(jobs), old(cancels), jobs, cancels) && AllLater(old(jobs), jobs)
        invariant Caused(old(jobs), jobs, TheCause(), offered) && Pending(old(jobs), jobs, offered, Lost, stopping)
        invariant stream == old(stream) && abandoned && (stopping ==> !keepGoing)
      {
        if jobs[j].state.Offerable() {
          LoseOne(j, old(jobs), old(cancels), offered);
        } else {
          BooksWeaken(TheBooks(), {}, From(j, |jobs|), {}, From(j + 1, |jobs|));
        }
        j := j + 1;
      }
      BooksWeaken(TheBooks(), {}, From(j, |jobs|), {}, {});
      BooksFacts(TheBooks());
      PendingEnd(old(jobs), jobs, offered, Lost, stopping);
      PlacedStay(old(jobs), jobs, TheCause(), offered);
    }

    /** Ends one job that no scheduler will place any more. */
    method LoseOne(j: JobId, ghost before: seq<Job>, ghost cancels0: seq<JobId>, ghost offered: set<JobId>)
      requires 0 <= j < |jobs| == |before| && jobs[j].state.Offerable() && abandoned && offered == Offered(before)
      requires GraphOk(jobs, inputs, -1, []) && BooksOk(TheBooks(), {}, From(j, |jobs|)) && Counts() && rewant == []
      requires FollowStep(before, cancels0, jobs, cancels) && AllLater(before, jobs)
      requires Caused(before, jobs, TheCause(), offered) && Pending(before, jobs, offered, Lost, stopping)
      modifies this`jobs, this`wantable, this`ready, this`cancels, this`active, this`remaining, this`progressed,
        this`stopping
      ensures |jobs| == |before| && (keepGoing ==> stopping == old(stopping)) && (old(stopping) ==> stopping)
      ensures GraphOk(jobs, inputs, -1, []) && BooksOk(TheBooks(), {}, From(j + 1, |jobs|)) && Counts()
      ensures FollowStep(before, cancels0, jobs, cancels) && AllLater(before, jobs)
      ensures Caused(before, jobs, TheCause(), offered) && Pending(before, jobs, offered, Lost, stopping)
    {
      hide GraphOk, BooksOk, Total, FollowStep, Settled, Caused, AllLater, Pending;
      ghost var jobs0, cancels1, c := jobs, cancels, TheCause();
      OfferedBefore(before, jobs, j);
      OfferedEnded(jobs, inputs, j);
      BooksWeaken(TheBooks(), {}, From(j, |jobs|), {j}, From(j + 1, |jobs|) + {j});
      Settle(j, JobState.Done(Lost, false), From(j + 1, |jobs|));
      SettledFollowStep(jobs0, cancels1, jobs, cancels);
      FollowStepTrans(before, cancels0, jobs0, cancels1, jobs, cancels);
      SettledSince(jobs0, cancels1, jobs, cancels);
      LaterSince(before, jobs0);
      CausedMore(before, jobs0, c, jobs, TheCause(), offered, j);
      PendingStep(before, jobs0, jobs, cancels1, cancels, TheCause(), offered, j, Lost, c.stopping);
      SettledLater(before, jobs0, cancels1, jobs, cancels);
    }

    // --------------------------------------------------- scheduler stream

    method TakeCancels() returns (out: seq<JobId>)
      requires Greeting()
      modifies this`cancels
      ensures Greeting() && cancels == [] && out == old(cancels) && NoDup(out)
    {
      hide GraphOk, BooksOk, Total;
      NoCancels(TheBooks());
      out := cancels;
      cancels := [];
    }

    /** Without a stream nobody follows anything for us. */
    method Disconnected()
      requires Valid()
      modifies this`jobs, this`stream
      ensures Valid() && !stream
      ensures |jobs| == |old(jobs)| && forall j :: 0 <= j < |jobs| ==> jobs[j] == old(jobs)[j].(followed := false)
    {
      hide GraphOk, BooksOk, Total;
      stream := false;
      StreamUp(old(TheBooks()));
      var j := 0;
      while j < |jobs|
        invariant 0 <= j <= |jobs| == |old(jobs)| && !stream
        invariant GraphOk(jobs, inputs, -1, []) && BooksOk(TheBooks().(stream := true), {}, {}) && Counts()
        invariant forall k :: 0 <= k < |jobs| ==>
          jobs[k] == if k < j then old(jobs)[k].(followed := false) else old(jobs)[k]
      {
        Forget(j);
        j := j + 1;
      }
      StreamDown(TheBooks().(stream := true));
    }

    method Forget(j: JobId)
      requires GraphOk(jobs, inputs, -1, []) && BooksOk(TheBooks().(stream := true), {}, {}) && Counts()
      requires 0 <= j < |jobs|
      modifies this`jobs
      ensures GraphOk(jobs, inputs, -1, []) && BooksOk(TheBooks().(stream := true), {}, {}) && Counts()
      ensures jobs == old(jobs)[j := old(jobs)[j].(followed := false)]
    {
      hide GraphOk, BooksOk, Total;
      BooksFacts(TheBooks().(stream := true));
      if jobs[j].followed {
        var job := jobs[j].(followed := false);
        GraphMove(jobs, inputs, j, job);
        ForgetFollow(TheBooks().(stream := true), j);
        CountsMove(jobs, j, job);
        jobs := jobs[j := job];
      }
    }

    /** A Want to be sent again. */
    method Reoffer(j: JobId)
      requires 0 <= j < |jobs| && jobs[j].state.Wanted? && !jobs[j].followed
      requires GraphOk(jobs, inputs, -1, []) && BooksOk(TheBooks(), {}, {}) && Counts()
      modifies this`jobs, this`wantable, this`ready, this`cancels, this`active, this`remaining, this`progressed
      ensures GraphOk(jobs, inputs, -1, []) && BooksOk(TheBooks(), {}, {}) && Counts()
      ensures jobs == old(jobs)[j := old(jobs)[j].(state := Wantable)] && cancels == old(cancels)
    {
      hide GraphOk, BooksOk, Total;
      var job := jobs[j].(state := Wantable);
      BooksFacts(TheBooks());
      GraphMove(jobs, inputs, j, job);
      MovedOk(TheBooks(), {}, {}, j, job, {}, {});
      To(j, job);
    }

    /** A stream is up: what was wanted is wanted again, and so is what is placed, so that the
        scheduler keeps its builds. The caller takes the wants at once. */
    method Connected()
      requires Valid() && !stream
      modifies this
      ensures stream && Greeting()
      ensures |jobs| == |old(jobs)| && forall j :: 0 <= j < |jobs| ==> jobs[j] == Reoffered(old(jobs)[j])
      ensures forall j :: j in rewant <==> 0 <= j < |jobs| && jobs[j].state.Placed()
      ensures NoDup(rewant) && cancels == old(cancels) && Followed(jobs) == {}
      ensures inputs == old(inputs) && abandoned == old(abandoned)
    {
      hide GraphOk, BooksOk, Total;
      BooksFacts(TheBooks());
      StreamUp(TheBooks());
      stream := true;
      var j := 0;
      while j < |jobs|
        invariant 0 <= j <= |jobs| == |old(jobs)|
        invariant stream && GraphOk(jobs, inputs, -1, []) && BooksOk(TheBooks(), {}, {}) && Counts()
        invariant forall k :: 0 <= k < |jobs| ==> jobs[k] == if k < j then Reoffered(old(jobs)[k]) else old(jobs)[k]
        invariant forall k :: k in rewant <==> 0 <= k < j && jobs[k].state.Placed()
        invariant inputs == old(inputs) && NoDup(rewant) && cancels == old(cancels)
        invariant abandoned == old(abandoned) && (stopping ==> !keepGoing)
        invariant forall k :: 0 <= k < |jobs| ==> !jobs[k].followed
      {
        if jobs[j].state.Wanted? {
          Reoffer(j);
        } else if jobs[j].state.Assigned? || jobs[j].state.Running? {
          NoDupAppend(rewant, j);
          rewant := rewant + [j];
        }
        j := j + 1;
      }
      assert forall k :: 0 <= k < |rewant| ==> rewant[k] in rewant;
    }

    /** Wants that were taken but never reached the scheduler are offered once more. */
    method Unsent(ids: seq<JobId>)
      requires Valid() && !stream && InRange(jobs, ids)
      modifies this
      ensures Valid() && !stream && inputs == old(inputs) && abandoned == old(abandoned) && cancels == old(cancels)
      ensures |jobs| == |old(jobs)| && forall j :: 0 <= j < |jobs| ==>
        jobs[j] == if j in ids then Reoffered(old(jobs)[j]) else old(jobs)[j]
    {
      hide GraphOk, BooksOk, Total;
      BooksFacts(TheBooks());
      var i := 0;
      while i < |ids|
        invariant 0 <= i <= |ids| && |jobs| == |old(jobs)|
        invariant Valid() && !stream && inputs == old(inputs) && abandoned == old(abandoned) && cancels == old(cancels)
        invariant forall j :: 0 <= j < |jobs| ==>
          jobs[j] == (if j in ids[..i] then Reoffered(old(jobs)[j]) else old(jobs)[j]) && !jobs[j].followed
      {
        var j := ids[i];
        assert ids[..i + 1] == ids[..i] + [j];
        if jobs[j].state.Wanted? {
          Reoffer(j);
        }
        i := i + 1;
      }
      assert ids[..i] == ids;
    }

    /** Marks the placed jobs that the new stream is about to be told of. */
    method FollowAgain() returns (out: seq<JobId>)
      requires GraphOk(jobs, inputs, -1, []) && BooksOk(TheBooks(), {}, {}) && Counts() && stream && cancels == []
      requires forall k :: 0 <= k < |rewant| ==> 0 <= rewant[k] < |jobs| && jobs[rewant[k]].state.Placed()
      modifies this`jobs, this`rewant
      ensures GraphOk(jobs, inputs, -1, []) && BooksOk(TheBooks(), {}, {}) && Counts() && rewant == []
      ensures out == old(rewant) && |jobs| == |old(jobs)|
      ensures forall j :: 0 <= j < |jobs| ==>
        jobs[j] == if j in out then old(jobs)[j].(followed := true) else old(jobs)[j]
    {
      hide GraphOk, BooksOk, Total;
      out := rewant;
      rewant := [];
      var k := 0;
      while k < |out|
        invariant 0 <= k <= |out| && |jobs| == |old(jobs)| && rewant == []
        invariant GraphOk(jobs, inputs, -1, []) && BooksOk(TheBooks(), {}, {}) && Counts()
        invariant forall j :: 0 <= j < |jobs| ==>
          jobs[j] == if j in out[..k] then old(jobs)[j].(followed := true) else old(jobs)[j]
      {
        var j := out[k];
        assert out[..k + 1] == out[..k] + [j];
        var job := jobs[j].(followed := true);
        GraphMove(jobs, inputs, j, job);
        FollowOk(TheBooks(), j);
        CountsMove(jobs, j, job);
        jobs := jobs[j := job];
        k := k + 1;
      }
      assert out[..k] == out;
    }

    /** Drops jobs that ended from the wantable list. */
    method Prune()
      requires BooksOk(TheBooks(), {}, {})
      modifies this`wantable
      ensures BooksOk(TheBooks(), {}, {}) && NoDup(wantable) && InRange(jobs, wantable)
      ensures forall j :: j in wantable <==> 0 <= j < |jobs| && jobs[j].state.Wantable?
    {
      hide BooksOk;
      BooksFacts(TheBooks());
      var kept: seq<JobId> := [];
      var k := 0;
      while k < |wantable|
        invariant 0 <= k <= |wantable| && wantable == old(wantable) && NoDup(kept)
        invariant forall j :: j in kept <==> j in wantable[..k] && 0 <= j < |jobs| && jobs[j].state.Wantable?
      {
        assert wantable[..k + 1] == wantable[..k] + [wantable[k]];
        if jobs[wantable[k]].state.Wantable? {
          assert wantable[k] !in wantable[..k];
          NoDupAppend(kept, wantable[k]);
          kept := kept + [wantable[k]];
        }
        k := k + 1;
      }
      assert wantable[..k] == wantable;
      WantableReordered(TheBooks(), kept);
      wantable := kept;
      BooksFacts(TheBooks());
    }

    /** Brings the `room` most urgent wantable jobs to the front, most urgent first. */
    method SortTop(room: nat)
      requires BooksOk(TheBooks(), {}, {}) && NoDup(wantable) && InRange(jobs, wantable) && room <= |wantable|
      modifies this`wantable
      ensures BooksOk(TheBooks(), {}, {}) && NoDup(wantable) && |wantable| == |old(wantable)| && InRange(jobs, wantable)
      ensures forall j :: j in wantable <==> j in old(wantable)
      ensures forall i, k :: 0 <= i < room && i <= k < |wantable| ==> jobs[wantable[i]].prio >= jobs[wantable[k]].prio
    {
      hide BooksOk;
      var i := 0;
      while i < room
        invariant 0 <= i <= room && |wantable| == |old(wantable)| && NoDup(wantable) && InRange(jobs, wantable)
        invariant forall j :: j in wantable <==> j in old(wantable)
        invariant forall x, k :: 0 <= x < i && x <= k < |wantable| ==> jobs[wantable[x]].prio >= jobs[wantable[k]].prio
      {
        var best, k := i, i + 1;
        while k < |wantable|
          invariant i <= best < k <= |wantable|
          invariant forall x :: i <= x < k ==> jobs[wantable[best]].prio >= jobs[wantable[x]].prio
        {
          if jobs[wantable[k]].prio > jobs[wantable[best]].prio {
            best := k;
          }
          k := k + 1;
        }
        SwapSame(wantable, i, best);
        wantable := wantable[i := wantable[best]][best := wantable[i]];
        i := i + 1;
      }
      WantableReordered(old(TheBooks()), wantable);
    }

    /** The jobs to ask for: what a new stream has to hear of, then the most urgent offered ones, no
        more than there are free threads. */
    method TakeWants() returns (out: seq<JobId>)
      requires Greeting() && cancels == []
      modifies this
      ensures Valid() && inputs == old(inputs) && cancels == [] && stream == old(stream) && abandoned == old(abandoned)
      ensures |jobs| == |old(jobs)| && InRange(jobs, out)
      ensures forall j :: 0 <= j < |jobs| ==> jobs[j] == if j in out then Followed1(old(jobs)[j]) else old(jobs)[j]
      ensures !stream ==> out == []
      ensures stream ==> old(rewant) <= out
      ensures forall k :: |old(rewant)| <= k < |out| ==> old(jobs)[out[k]].state.Wantable?
      ensures stream ==> active >= threads || forall j :: 0 <= j < |jobs| ==> !jobs[j].state.Wantable?
      ensures forall k, j :: |old(rewant)| <= k < |out| && 0 <= j < |jobs| && jobs[j].state.Wantable? ==>
        jobs[out[k]].prio >= jobs[j].prio
    {
      hide GraphOk, BooksOk, Total;
      out := [];
      if !stream {
        return;
      }
      out := FollowAgain();
      var taken := WantMore();
      assert forall j :: j in out + taken <==> j in out || j in taken;
      out := out + taken;
    }

    /** As many wantable jobs as there are free threads, the most urgent first. */
    method WantMore() returns (taken: seq<JobId>)
      requires Valid() && stream && cancels == []
      modifies this
      ensures Valid() && inputs == old(inputs) && cancels == [] && stream && abandoned == old(abandoned)
      ensures |jobs| == |old(jobs)| && InRange(jobs, taken)
      ensures forall j :: 0 <= j < |jobs| ==> jobs[j] == if j in taken then Followed1(old(jobs)[j]) else old(jobs)[j]
      ensures forall k :: 0 <= k < |taken| ==> old(jobs)[taken[k]].state.Wantable?
      ensures active >= threads || forall j :: 0 <= j < |jobs| ==> !jobs[j].state.Wantable?
      ensures forall k, j :: 0 <= k < |taken| && 0 <= j < |jobs| && jobs[j].state.Wantable? ==>
        jobs[taken[k]].prio >= jobs[j].prio
    {
      hide GraphOk, BooksOk, Total, NoDup, Followed1;
      Prune();
      var room := if threads > active then threads - active else 0;
      if room > |wantable| {
        room := |wantable|;
      }
      SortTop(room);
      ghost var list := wantable;
      taken := WantTop(room);
      SplitAt(list, room);
      TakenMostUrgent(old(jobs), jobs, wantable, taken);
    }

    /** The first `room` wantable jobs are wanted. */
    method WantTop(room: nat) returns (taken: seq<JobId>)
      requires GraphOk(jobs, inputs, -1, []) && BooksOk(TheBooks(), {}, {}) && Counts() && rewant == []
      requires stream && cancels == [] && room <= |wantable| && (room > 0 ==> active + room <= threads)
      requires stopping ==> !keepGoing
      requires NoDup(wantable) && InRange(jobs, wantable)
      requires forall k :: 0 <= k < |wantable| ==> jobs[wantable[k]].state.Wantable?
      modifies this
      ensures Valid() && inputs == old(inputs) && cancels == [] && stream && abandoned == old(abandoned)
      ensures taken == old(wantable)[..room] && wantable == old(wantable)[room..] && active == old(active) + room
      ensures |jobs| == |old(jobs)|
      ensures forall j :: 0 <= j < |jobs| ==> jobs[j] == if j in taken then Followed1(old(jobs)[j]) else old(jobs)[j]
    {
      hide GraphOk, BooksOk, Total;
      taken := [];
      while |taken| < room
        invariant |taken| <= room && taken == old(wantable)[..|taken|] && wantable == old(wantable)[|taken|..]
        invariant Valid() && inputs == old(inputs) && cancels == [] && stream
        invariant abandoned == old(abandoned) && active == old(active) + |taken|
        invariant |jobs| == |old(jobs)|
        invariant forall j :: 0 <= j < |jobs| ==>
          jobs[j] == if j in taken then Followed1(old(jobs)[j]) else old(jobs)[j]
      {
        var j := wantable[0];
        assert j == old(wantable)[|taken|] && j !in taken;
        assert old(wantable)[..|taken| + 1] == taken + [j];
        BooksFacts(TheBooks());
        var job := jobs[j].(state := Wanted(None), followed := true);
        GraphMove(jobs, inputs, j, job);
        WantOk(TheBooks(), j);
        CountsMove(jobs, j, job);
        jobs := jobs[j := job];
        active := active + 1;
        wantable := wantable[1..];
        taken := taken + [j];
      }
    }

    // ------------------------------------------------------------ theorems

    /** Only jobs whose inputs all succeeded are offered, wanted or placed. */
    lemma OnlyReadyRun(j: JobId)
      requires Valid() && 0 <= j < |jobs| && (jobs[j].state.Wantable? || jobs[j].state.Active())
      ensures |inputs| == |jobs| && forall i :: i in inputs[j] ==> 0 <= i < |jobs| && Succeeded(jobs[i])
    {
    }

    /** A blocked job waits for exactly its edges from jobs that are not done, at least one. */
    lemma WaitingIsExact(j: JobId)
      requires Valid() && 0 <= j < |jobs| && jobs[j].state.Blocked?
      ensures jobs[j].state.waiting == Total(EdgesTo(j), jobs) > 0
    {
      assert WaitOk(jobs, [], j);
    }

    lemma ValidIsGreeting()
      requires Valid()
      ensures Greeting()
    {
    }

    /** A failure spreads exactly as far as it must: while the run goes on, the jobs that ended
        with `first` are those whose inputs have all ended, not all well. */
    lemma CascadeIsExact(before: seq<Job>, first: JobId, j: JobId)
      requires Valid() && Caused(before, jobs, TheCause(), {first}) && !stopping && !abandoned
      requires 0 <= j < |jobs| && j != first && !before[j].state.Done?
      ensures |inputs| == |jobs| && (jobs[j].state.Done? <==> AllEnded(jobs, inputs[j]) && SomeFailed(jobs, inputs[j]))
    {
      hide Counts, EndsAs;
      if jobs[j].state.Done? {
        assert EndsAs(TheCause(), jobs, j, jobs[j].state);
        EndedByInputs(TheCause(), jobs, j);
      } else if jobs[j].state.Blocked? {
        WaitsForInputs(jobs, inputs, j);
      } else {
        OfferedSucceeded(jobs, inputs, j);
      }
    }

    /** Without a stream nothing is followed, and neither is a job that ended. */
    lemma NotFollowed()
      requires Valid() && (!stream || remaining == 0)
      ensures Followed(jobs) == {}
    {
      if stream {
        forall j | 0 <= j < |jobs|
          ensures !jobs[j].followed
        {
          CountsMove(jobs, j, jobs[j]);
        }
      }
    }

    /** Once every job has ended there is nothing to ask for. */
    lemma NothingToWant()
      requires Greeting() && remaining == 0
      ensures rewant == [] && forall j :: 0 <= j < |jobs| ==> jobs[j].state.Done?
    {
      hide GraphOk, BooksOk, Total;
      forall j | 0 <= j < |jobs|
        ensures jobs[j].state.Done?
      {
        CountsMove(jobs, j, jobs[j]);
      }
      assert |rewant| > 0 ==> jobs[rewant[0]].state.Placed();
    }

    lemma EndedNow()
      requires Valid() && remaining == 0
      ensures Followed(jobs) == {} && forall j :: 0 <= j < |jobs| ==> jobs[j].state.Done?
    {
      NotFollowed();
      ValidIsGreeting();
      NothingToWant();
    }

    /** And it stays so. */
    lemma StaysEnded(before: seq<Job>)
      requires Valid() && DoneStays(before, jobs) && forall j :: 0 <= j < |before| ==> before[j].state.Done?
      ensures remaining == 0
    {
      hide GraphOk, BooksOk;
      if Total(OpenJobs, jobs) > 0 {
        var j := TotalSource(OpenJobs, jobs);
      }
    }

    /** The scheduler is never left following a job that ended. */
    lemma DoneIsNotFollowed(j: JobId)
      requires Valid() && 0 <= j < |jobs| && jobs[j].state.Done?
      ensures !jobs[j].followed
    {
    }

    /** While jobs remain, some job is not blocked: a run whose inputs are acyclic cannot wait for
        itself. */
    lemma SomethingToDo(order: seq<nat>) returns (j: JobId)
      requires Valid() && Acyclic(inputs, order) && remaining > 0
      ensures 0 <= j < |jobs| && !jobs[j].state.Done? && !jobs[j].state.Blocked?
    {
      var i := TotalSource(OpenJobs, jobs);
      j := SomeUnblocked(jobs, inputs, order, i);
    }

    /** After abandon(), once nothing is assigned or running everything has ended. */
    lemma AbandonedEnds(order: seq<nat>)
      requires Valid() && Acyclic(inputs, order) && abandoned && forall j :: 0 <= j < |jobs| ==> !jobs[j].state.Placed()
      ensures remaining == 0 && forall j :: 0 <= j < |jobs| ==> jobs[j].state.Done?
    {
      if remaining > 0 {
        var j := SomethingToDo(order);
        assert false;
      }
      forall j | 0 <= j < |jobs|
        ensures jobs[j].state.Done?
      {
        CountsMove(jobs, j, jobs[j]);
      }
    }
  }

  lemma SplitAt(list: seq<JobId>, n: nat)
    requires n <= |list|
    ensures forall j :: j in list ==> j in list[..n] || j in list[n..]
  {
  }

  /** Taken from the front of a list sorted that far. */
  lemma TakenMostUrgent(before: seq<Job>, after: seq<Job>, left: seq<JobId>, taken: seq<JobId>)
    requires |after| == |before| && InRange(before, left) && InRange(before, taken)
    requires forall j :: 0 <= j < |after| ==> after[j] == if j in taken then Followed1(before[j]) else before[j]
    requires forall j :: 0 <= j < |before| && before[j].state.Wantable? ==> j in taken || j in left
    requires forall i, k :: 0 <= i < |taken| && 0 <= k < |left| ==> before[taken[i]].prio >= before[left[k]].prio
    ensures forall j :: 0 <= j < |after| && after[j].state.Wantable? ==> j in left
    ensures forall i, j :: 0 <= i < |taken| && 0 <= j < |after| && after[j].state.Wantable? ==>
      after[taken[i]].prio >= after[j].prio
  {
  }

  /** Where a job goes that waits for nothing any more. */
  function Unblocked(failedInput: bool, stopping: bool, abandoned: bool): JobState {
    if failedInput then JobState.Done(DependencyFailed, false)
    else if stopping then JobState.Done(Cancelled, false)
    else if abandoned then JobState.Done(Lost, false)
    else Wantable
  }

  /** A blocked job waits exactly as long as some input has not ended, and notes a failure. */
  lemma WaitsForInputs(jobs: seq<Job>, inputs: seq<seq<JobId>>, j: JobId)
    requires GraphOk(jobs, inputs, -1, []) && 0 <= j < |jobs| && jobs[j].state.Blocked?
    ensures |inputs| == |jobs| && (jobs[j].state.waiting == 0 <==> AllEnded(jobs, inputs[j]))
    ensures jobs[j].failedInput.Some? <==> SomeFailed(jobs, inputs[j])
  {
    assert WaitOk(jobs, [], j);
    if jobs[j].state.waiting == 0 {
      ParkedEnds(Cause(inputs, false, false), jobs, -1, [], j);
    } else {
      var i := TotalSource(EdgesTo(j), jobs);
      assert i in inputs[j];
    }
    if SomeFailed(jobs, inputs[j]) {
      var i :| i in inputs[j] && 0 <= i < |jobs| && Failed(jobs[i]);
      assert InputOk(jobs, -1, [], i, j);
    }
    if jobs[j].failedInput.Some? {
      assert FailedInputOk(jobs, inputs, j);
    }
  }

  lemma SameEnds(before: seq<Job>, jobs: seq<Job>, ids: seq<JobId>)
    requires |before| <= |jobs| && InRange(before, ids)
    requires forall i :: 0 <= i < |before| ==> jobs[i].state == before[i].state
    ensures AllEnded(jobs, ids) == AllEnded(before, ids) && SomeFailed(jobs, ids) == SomeFailed(before, ids)
  {
    assert forall i :: i in ids ==> 0 <= i < |before|;
    if SomeFailed(before, ids) {
      var i :| i in ids && 0 <= i < |before| && Failed(before[i]);
      assert Failed(jobs[i]);
    }
    if SomeFailed(jobs, ids) {
      var i :| i in ids && 0 <= i < |jobs| && Failed(jobs[i]);
      assert Failed(before[i]);
    }
  }

  /** What a call about job j may do to the others. */
  ghost predicate OthersLater(before: seq<Job>, after: seq<Job>, j: JobId) {
    |after| == |before| && forall i :: 0 <= i < |after| && i != j ==> Later(before[i], after[i])
  }

  lemma OthersSame(before: seq<Job>, after: seq<Job>, c: Cause, j: JobId)
    requires |after| == |before| && 0 <= j < |after| && after == before[j := after[j]]
    ensures OthersLater(before, after, j) && Caused(before, after, c, {j})
  {
  }

  /** A job is set aside and released, or ended: what that does to the others. */
  lemma ReleaseCauses(before: seq<Job>, mid: seq<Job>, cancels0: seq<JobId>, after: seq<Job>, cancels: seq<JobId>,
                      c: Cause, j: JobId)
    requires 0 <= j < |before| == |mid| == |after| && mid == before[j := mid[j]]
    requires (Settled(mid, cancels0, after, cancels) && Caused(mid, after, c, {j})) || after == mid[j := after[j]]
    ensures Caused(before, after, c, {j}) && OthersLater(before, after, j)
  {
    hide EndsAs;
  }

  lemma OthersMore(before: seq<Job>, mid: seq<Job>, after: seq<Job>, c: Cause, j: JobId)
    requires 0 <= j < |before| == |mid| && mid == before[j := mid[j]]
    requires Caused(mid, after, c, {j}) && OthersLater(mid, after, j)
    ensures Caused(before, after, c, {j}) && OthersLater(before, after, j)
  {
    hide EndsAs;
  }

  lemma RunningStays(mid: seq<Job>, cancels0: seq<JobId>, after: seq<Job>, cancels: seq<JobId>, c: Cause, j: JobId)
    requires 0 <= j < |mid| == |after|
    requires (Settled(mid, cancels0, after, cancels) && Caused(mid, after, c, {j})) || after == mid[j := after[j]]
    ensures forall i :: 0 <= i < |mid| && i != j && mid[i].state.Running? ==> after[i] == mid[i]
  {
    hide EndsAs;
  }

  lemma NoInputs(jobs: seq<Job>)
    ensures AllEnded(jobs, []) && !SomeFailed(jobs, [])
  {
  }

  lemma EndedByInputs(c: Cause, jobs: seq<Job>, j: JobId)
    requires 0 <= j < |jobs| && EndsAs(c, jobs, j, jobs[j].state) && !c.stopping && !c.abandoned
    ensures AllEnded(jobs, c.inputs[j]) && SomeFailed(jobs, c.inputs[j])
  {
  }

  lemma OfferedSucceeded(jobs: seq<Job>, inputs: seq<seq<JobId>>, j: JobId)
    requires GraphOk(jobs, inputs, -1, []) && 0 <= j < |jobs| && !jobs[j].state.Done? && !jobs[j].state.Blocked?
    ensures |inputs| == |jobs| && !SomeFailed(jobs, inputs[j])
  {
  }

  /** Adding a job ends others only for a reason. */
  lemma AddCauses(before: seq<Job>, mid: seq<Job>, after: seq<Job>, c: Cause, j: JobId)
    requires j == |before| && |mid| == |after| == j + 1 && forall i :: 0 <= i < j ==> mid[i].state == before[i].state
    requires Caused(mid, after, c, {j}) || after == mid || after == mid[j := mid[j].(state := Wantable)]
    ensures Caused(before + [after[j]], after, c, {})
  {
    hide EndsAs;
  }

  /** A job gives up its place and waits for one more input. */
  function Waiting(jobs: seq<Job>, j: JobId, input: JobId): seq<Job>
    requires 0 <= j < |jobs| && 0 <= input < |jobs|
  {
    InputAdded(jobs[j := jobs[j].(state := Blocked(0), followed := false)], j, input)
  }

  /** A job whose Want is being sent. */
  function Followed1(job: Job): Job {
    if job.state.Wantable? then job.(state := Wanted(None), followed := true) else job.(followed := true)
  }

  lemma SwapSame<T(!new)>(s: seq<T>, i: int, k: int)
    requires NoDup(s) && 0 <= i < |s| && 0 <= k < |s|
    ensures var t := s[i := s[k]][k := s[i]];
      NoDup(t) && |t| == |s| && forall x :: x in t <==> x in s
  {
    var t := s[i := s[k]][k := s[i]];
    forall x
      ensures x in t <==> x in s
    {
      if x in s {
        var a :| 0 <= a < |s| && s[a] == x;
        assert t[if a == i then k else if a == k then i else a] == x;
      }
    }
  }

  function Reoffered(job: Job): Job {
    if job.state.Wanted? then job.(state := Wantable) else job
  }

  lemma NoCancels(b: Books)
    requires BooksOk(b, {}, {})
    ensures BooksOk(b.(cancels := []), {}, {}) && NoDup(b.cancels)
  {
  }

  lemma StreamDown(b: Books)
    requires BooksOk(b, {}, {}) && forall j :: 0 <= j < |b.jobs| ==> !b.jobs[j].followed
    ensures BooksOk(b.(stream := false), {}, {})
  {
  }

  lemma ForgetFollow(b: Books, j: JobId)
    requires BooksOk(b, {}, {}) && 0 <= j < |b.jobs|
    ensures BooksOk(b.(jobs := b.jobs[j := b.jobs[j].(followed := false)]), {}, {})
  {
  }

  lemma StreamUp(b: Books)
    requires BooksOk(b, {}, {})
    ensures BooksOk(b.(stream := true), {}, {})
  {
  }

  function AfterAssigned(job: Job, at: Placement): Job {
    if at.addr == "" then job
    else if job.state.Running? then
      if at.addr != job.state.at.addr then job.(state := job.state.(redirect := Some(at))) else job
    else if job.state.Assigned? || job.state.Wanted? then job.(state := JobState.Assigned(at))
    else job
  }

  /** Dropping the head of the ready list when it is not an assigned job. */
  lemma ReadyPop(b: Books)
    requires BooksOk(b, {}, {}) && b.ready != []
    requires !b.jobs[b.ready[0]].state.Assigned?
    ensures BooksOk(b.(ready := b.ready[1..]), {}, {})
  {
  }

  lemma NoneReady(b: Books)
    requires BooksOk(b, {}, {}) && b.ready == []
    ensures forall j :: 0 <= j < |b.jobs| ==> !b.jobs[j].state.Assigned?
  {
  }

  ghost function From(j: JobId, n: int): (r: set<JobId>)
    ensures forall k :: k in r <==> j <= k < n
    decreases n - j
  {
    if j >= n then {} else {j} + From(j + 1, n)
  }

  /** Turning quiet with every job still to be looked at. */
  lemma QuietBut(b: Books)
    requires BooksOk(b, {}, {})
    ensures BooksOk(b.(quiet := true), {}, From(0, |b.jobs|))
  {
  }

  lemma LaterStart(jobs: seq<Job>)
    ensures AllLater(jobs, jobs)
  {
  }

  /** A settlement offers no job that was not blocked, and changes no wanted one it does not end. */
  lemma SettledLater(before: seq<Job>, jobs: seq<Job>, cancels0: seq<JobId>, after: seq<Job>, cancels: seq<JobId>)
    requires AllLater(before, jobs) && Settled(jobs, cancels0, after, cancels)
    ensures AllLater(before, after) && |after| == |jobs|
    ensures forall j :: 0 <= j < |after| && after[j].state.Wanted? ==> after[j] == jobs[j]
    ensures forall j :: 0 <= j < |after| && jobs[j].state.Done? ==> after[j] == jobs[j]
  {
  }

  lemma UnfollowStep(before: seq<Job>, cancels0: seq<JobId>, after: seq<Job>, cancels: seq<JobId>, j: JobId)
    requires 0 <= j < |before| == |after| && after == before[j := after[j]] && !after[j].followed
    requires cancels == if before[j].followed then cancels0 + [j] else cancels0
    ensures FollowStep(before, cancels0, after, cancels)
  {
  }

  lemma NotFollowedYet(before: seq<Job>, jobs: seq<Job>, j: JobId, ins: seq<JobId>)
    requires OnlyLinked(before, jobs, j, ins) && !before[j].followed
    ensures !jobs[j].followed
  {
  }

  /** A release keeps priorities and bounce counts. */
  lemma ReleaseKeeps(before: seq<Job>, cancels0: seq<JobId>, after: seq<Job>, cancels: seq<JobId>, j: JobId)
    requires 0 <= j < |before|
    requires Settled(before, cancels0, after, cancels) || after == before[j := before[j].(state := Wantable)]
    ensures |after| == |before| && 0 <= j < |after|
    ensures forall i :: 0 <= i < |after| ==> after[i].prio == before[i].prio && after[i].bounced == before[i].bounced
  {
  }

  lemma ReleaseFollowStep(before: seq<Job>, cancels0: seq<JobId>, after: seq<Job>, cancels: seq<JobId>, j: JobId)
    requires 0 <= j < |before|
    requires
      || Settled(before, cancels0, after, cancels)
      || (after == before[j := before[j].(state := Wantable)] && cancels == cancels0)
    ensures FollowStep(before, cancels0, after, cancels) && |after| == |before|
  {
    if Settled(before, cancels0, after, cancels) {
      SettledFollowStep(before, cancels0, after, cancels);
    } else {
      FollowStepSame(before, after, cancels);
    }
  }
}
