# nix-grpc-store: a Dafny model of its state machines

nix-grpc-store sends Nix builds to a farm of workers. A scheduler places derivations on
workers, a client runs a graph of builds against it, workers hold leases on what was placed on
them, and uploads, log replay and NAR downloads move the bytes. This project models the state
machines behind that and proves what they keep in every run.

- `IndexedHeap`, `FreeIndex`, `SystemTable`, `SchedState`, `SchedLemmas`, `DispatchSpec`,
  `SchedCore`: the placement core. One invariant ties together the entry table with recycled
  ids, a 4-ary heap and a bucket index per system, the running lists and the client index.
  `dispatch` is work-conserving and has no priority inversion.
- `Dispatcher`: the event layer above it. After every event the clients of each queued entry
  know whether any worker could ever run it.
- `JobGraph`, `Executor`, `ClientRun`: the client's run. Waiting counts are exact, only jobs
  whose inputs succeeded run, a failure ends exactly the jobs it must, something can always go on,
  and after each flush the scheduler believes exactly what the client follows.
- `Lease`, `LeaseProtocol`: a worker's Expect table against the scheduler's placements, over
  sessions that break. In every interleaving no slot leaks, and every counted slot can come free.
- `Uploads`, `UploadProgress`, `UploadOrder`: concurrent uploads that wait for each other. Streams
  that list references first never deadlock and every run of them ends; any other stream can be
  blocked for good.
- `TopDown`, `BuildSpec`, `BuildWalk`: the batched graph walks. Each computes exactly a set that
  is defined without them.
- `SchedReactor`: one outstanding write per stream, in order, and one Finish.
- `LogSpill`: the record log, byte for byte, through truncation, resumed and failed reads.
- `NarSplit`, `NarFetcher`: the largest-first split, within 4/3 - 1/(3N) of the best one.

Objects whose fields the code changes in place are classes here, with the same steps in their
methods. What concurrent threads do to each other is a state machine over their critical
sections, with every interleaving allowed. The parts of an invariant are predicates on values,
and each has small lemmas saying how one change keeps it.

Two promises are not true of the code as they stand. Each has its counterexample and the
condition under which it holds:

- The comment at src/daemon/main.cc:459 gives as the reason for the absence of deadlock that only
  references are awaited. That is not enough: whatever stream does not list references first, two
  streams that do can block it, and themselves, for good (`UploadOrder.UnorderedCanDeadlock`).
  Listing them first is exactly what it takes (`UploadOrder.SafeExactlyIfOrdered`).
- A log follower that answers true need not have replayed everything: a drain that cannot read a
  record skips the rest and counts as caught up (`LogSpill.LossIsSilent`). It replayed everything
  exactly if no read failed (`LogSpill.FollowSpill`, `LogSpill.AllIfNoReadFailed`).

The placement core asks one thing of its caller: a Want for an entry without a system names one
(`SchedCore.Core.Want`). The event layer does, with its default. After a first Want without a name
(`SchedLemmas.NamelessWant`), the next one that has a name would queue the entry a second time
(`SchedLemmas.QueuedOnce`).

## Model

| member | source | states |
|---|---|---|
| IndexedHeaps.IndexedHeap.SiftUp | src/daemon/scheduler.hh:78-90 | moving an item up keeps positions and heap mutually inverse and the contents, and leaves only the part below it to check |
| IndexedHeaps.IndexedHeap.LeastChild | src/daemon/scheduler.hh:101-106 | of up to four children, one that no sibling precedes |
| IndexedHeaps.IndexedHeap.SiftDown | src/daemon/scheduler.hh:92-114 | from an order broken only below the start, restores the whole order with the same contents |
| IndexedHeaps.IndexedHeap.Contains | src/daemon/scheduler.hh:122-125 | true exactly for the ids of the map the heap stands for |
| IndexedHeaps.IndexedHeap.Top | src/daemon/scheduler.hh:127-135 | the least (key, id) pair of all the contents |
| IndexedHeaps.IndexedHeap.Set | src/daemon/scheduler.hh:137-159 | refines map update, for a new id, a smaller and a larger key |
| IndexedHeaps.IndexedHeap.Erase | src/daemon/scheduler.hh:161-176 | refines map removal, with the last element moved into the gap and repaired up, then down |
| HeapOrder.RootLeast | src/daemon/scheduler.hh:78-114 | in a 4-ary heap in order, the root precedes every item |
| HeapOrder.EraseLinked | src/daemon/scheduler.hh:161-176 | the swap-remove keeps positions inverse and removes just that id |
| HeapOrder.SwapUp | src/daemon/scheduler.hh:81-88 | swapping with the parent moves the one place out of order up, and what is below it is in order |
| HeapOrder.SwapDown | src/daemon/scheduler.hh:96-112 | swapping with the best child moves the one place out of order down |
| FreeIndexes.FreeIndex.Push | src/daemon/scheduler.hh:206-220 | starts tracking a worker with no free slots, once |
| FreeIndexes.FreeIndex.Get | src/daemon/scheduler.hh:222-225 | the value last set for a tracked worker, else zero |
| FreeIndexes.FreeIndex.Set | src/daemon/scheduler.hh:227-251 | refines map update; the bucket swap-remove and the bitmask stay in step |
| FreeIndexes.FreeIndex.MaxFree | src/daemon/scheduler.hh:253-256 | no tracked worker has more free slots than the highest bucket in the mask |
| FreeIndexes.FreeIndex.Emptiest | src/daemon/scheduler.hh:258-265 | a tracked worker with a true maximum of free slots, none only if nobody has any |
| Buckets.MoveOk | src/daemon/scheduler.hh:236-250 | moving a worker between buckets leaves every worker in exactly the bucket of its value, at its position |
| SystemTables.SystemTable.QueueSet | src/daemon/scheduler.hh:854-857 | sets one key in one system and touches no other queue or index |
| SystemTables.SystemTable.QueueErase | src/daemon/scheduler.hh:854-857 | removes one key from one system and touches no other queue or index |
| SystemTables.SystemTable.QueueTop | src/daemon/scheduler.hh:640-642 | the least key of that system |
| SystemTables.SystemTable.Drop | src/daemon/scheduler.hh:826-828 | forgets a system whose queue is empty |
| SystemTables.SystemTable.FreeSet | src/daemon/scheduler.hh:905-907 | sets one worker's slots in one system only |
| SystemTables.SystemTable.HasFree | src/daemon/scheduler.hh:640-642 | whether some worker has a free slot in that system |
| SystemTables.SystemTable.Emptiest | src/daemon/scheduler.hh:928-935 | a worker with most free slots in that system |
| SchedLemmas.EntryInOnePlace | src/daemon/scheduler.hh:414-655 | a live entry is followed or placed; it is under its current priority in the queue of its own system only, iff unplaced, and exactly once in the running list of exactly one up worker, iff placed |
| SchedLemmas.IdsPartition | src/daemon/scheduler.hh:331-350 | live and free ids partition the table, each free id is listed once, and each live id has one path |
| SchedLemmas.AdoptAllAt | src/daemon/scheduler.hh:534-554 | after a Hello each reported path runs on that worker under the id last reported, with its followers kept, and every other path is as it was |
| SchedLemmas.QueuedOnce | src/daemon/scheduler.hh:429-443 | another Want leaves an unplaced entry in its own queue and no other exactly if the entry has a system or the Want names none |
| SchedLemmas.NamelessWant | src/daemon/scheduler.hh:418-443 | a first Want without a name makes an entry without a system, queued under the empty name |
| SchedCore.Core.constructor | src/daemon/scheduler.hh:321-329 | an empty core meets the invariant |
| SchedCore.Core.RefreshFree | src/daemon/scheduler.hh:900-908 | every free index agrees with the worker again, no queue changes |
| SchedCore.Core.Retire | src/daemon/scheduler.hh:817-833 | removes one entry and recycles its id; all tables still agree |
| SchedCore.Core.Intern | src/daemon/scheduler.hh:331-350 | finds or makes the entry of a path, reusing a free id, and leaves every other entry alone |
| SchedCore.Core.Want | src/daemon/scheduler.hh:414-445 | the table by path changes only at that path, to the entry with this follower; the reply is where it is placed, if it is |
| SchedCore.Core.CancelId | src/daemon/scheduler.hh:460-480 | drops one follower, retires an unplaced entry left without any, reports a placed one left without any |
| SchedCore.Core.Cancel | src/daemon/scheduler.hh:448-455 | the same by path, nothing for an unknown path |
| SchedCore.Core.ClientGone | src/daemon/scheduler.hh:482-495 | despite stale and recycled ids in its list, removes the client from every entry, retires exactly the unplaced entries it leaves unfollowed, and reports each placed one left unfollowed exactly once |
| SchedCore.Core.SetDraining | src/daemon/scheduler.hh:600-604 | changes that flag, keeps all tables in agreement |
| SchedCore.Core.Done | src/daemon/scheduler.hh:559-576 | ends the entry if it runs on that worker and changes no other; other workers stay as they are |
| SchedCore.Core.RememberBuilders | src/daemon/scheduler.hh:841-852 | what is remembered is a report of this call or unchanged, the last report always is, the bound holds |
| SchedCore.Core.GiveBack | src/daemon/scheduler.hh:579-598 | requeues the entry away from its giver if followed, else ends it, only if it runs there |
| SchedCore.Core.WorkerGone | src/daemon/scheduler.hh:608-631 | the worker is down and runs nothing; each of its entries is requeued if followed, else gone; the others stay |
| SchedCore.Core.WorkerIdFor | src/daemon/scheduler.hh:358-367 | one id per address, found or new |
| SchedCore.Core.Hello | src/daemon/scheduler.hh:515-557 | the worker runs exactly what it reported, whatever was believed before; superseded placements and followers to tell are reported exactly; the free index and all other tables agree |
| SchedCore.Core.EmptiestFor | src/daemon/scheduler.hh:926-944 | a capable worker with most free slots, none only if no worker is capable |
| SchedCore.Core.Avoiding | src/daemon/scheduler.hh:947-965 | the most free capable worker but the giver; the giver only if no other takes such work; none only if another takes it but is full |
| SchedCore.Core.Pick | src/daemon/scheduler.hh:967-1007 | nothing and then the entry is stuck, or a capable worker with the highest score: no capable one is more free than the one it starts from, and those holding inputs count their bytes; the giver only if no other worker takes it |
| SchedCore.Core.Prefer | src/daemon/scheduler.hh:976-1006 | the best score of local input bytes and free slots among the preferable workers |
| SchedCore.Core.BestSystem | src/daemon/scheduler.hh:638-649 | the most urgent queued key of all systems that have a free slot |
| SchedCore.Core.DispatchHead | src/daemon/scheduler.hh:866-888 | places the head or sets it aside as stuck; the waiting set shrinks |
| SchedCore.Core.Dispatch | src/daemon/scheduler.hh:634-655 | ends; places only on up, not draining, not full workers with the system and features; leaves no entry queued unless the only capable worker is its giver while another takes such work; has no priority inversion; running exceeds maxJobs only where it did before |
| SchedCore.Core.PlaceabilityChanges | src/daemon/scheduler.hh:692-709 | reports exactly the entries whose flag was wrong, once each, and corrects them |
| SchedCore.Core.MarkUnplaceable | src/daemon/scheduler.hh:682-687 | sets one flag and nothing else |
| DispatchSpec.HeadIsDispatchable | src/daemon/scheduler.hh:868-877 | the head of a queue is live, unplaced and followed: the branch for stale heads is dead |
| DispatchSpec.IndexMeansCapable | src/daemon/scheduler.hh:890-944 | the free index shows slots exactly for the workers that could take the entry now |
| DispatchSpec.NotPassedOver | src/daemon/scheduler.hh:634-655 | a more urgent entry left queued is not offered by the worker just chosen, or was given back by it |
| DispatchSpec.InversionStep | src/daemon/scheduler.hh:634-655 | one more placement keeps the absence of priority inversion over the whole dispatch |
| DispatchSpec.StuckStays | src/daemon/scheduler.hh:866-888 | placing other work does not free an entry that is stuck |
| DispatchSpec.NothingLeft | src/daemon/scheduler.hh:634-655 | when no system with a free slot has work queued, every queued entry is stuck |
| DispatchSpec.CandidatesStep | src/daemon/scheduler.hh:980-997 | the candidates collect, per worker, the bytes of the inputs it built last |
| DispatchSpec.RememberMore | src/daemon/scheduler.hh:841-852 | one more report keeps what may be remembered |
| Dispatchers.Dispatcher.PlaceabilityChanged | src/daemon/dispatcher.cc:405-422 | afterwards each queued entry's flag is the negation of placeable; exactly the flipped ones are told |
| Dispatchers.Dispatcher.DispatchLocked | src/daemon/dispatcher.cc:245-278 | keeps the flags right also when a worker is lost while being told; no follower is lost |
| Dispatchers.Dispatcher.OnWant | src/daemon/dispatcher.cc:500-557 | exactly when it is answered restarting, cached or refused, which changes nothing; else assigned names the placement, and unplaceable and queued say whether any worker could ever run it |
| Dispatchers.Dispatcher.OnCancel | src/daemon/dispatcher.cc:560-565 | unfollows in the table by path; names the worker to revoke on exactly when the last follower of a placed entry left |
| Dispatchers.Dispatcher.ClientGone | src/daemon/dispatcher.cc:567-582 | no entry has that follower any more; the orphans are the placed entries it left unfollowed, once each |
| Dispatchers.Dispatcher.OnHello | src/daemon/dispatcher.cc:603-649 | refuses exactly a Hello without address or systems or with a long system name; else the worker is up and its session known |
| Dispatchers.Dispatcher.OnDone | src/daemon/dispatcher.cc:651-667 | the path no longer runs on that worker; the flags stay right when it is given back |
| Dispatchers.Dispatcher.OnLoad | src/daemon/dispatcher.cc:677-681 | only the draining flag of that worker changes; the flags stay right |
| Dispatchers.Dispatcher.WorkerMsgs | src/daemon/dispatcher.cc:586-601 | a batch keeps the invariant and is refused exactly if it does not start with Hello on a new session or holds a bad Hello; an empty one changes nothing |
| Dispatchers.Dispatcher.WorkerGone | src/daemon/dispatcher.cc:684-699 | the session is gone and the flags are right for what was requeued |
| Dispatchers.Dispatcher.Run | src/daemon/dispatcher.cc:500-699 | any sequence of events keeps the core's invariant and the flags |
| Dispatchers.FlagsAfterWant | src/daemon/dispatcher.cc:544-557 | a Want can leave only its own entry's followers to be told |
| Executors.Executor.constructor | src/client/executor.hh:89-92 | an empty run meets the invariant |
| Executors.Executor.Add | src/client/executor.hh:95-115 | appends one job with these inputs: blocked exactly while one has not ended, else offered or ended as their failures and the run decide; running jobs stay, and others end only for a reason |
| Executors.Executor.AddInput | src/client/executor.hh:101-109 | links one input: an edge and a count if it is open, a note if it failed |
| Executors.Executor.BlockOn | src/client/executor.hh:117-136 | a running job is unfollowed and waits for exactly one more input, or, if that has ended, goes on as its end says, stays followed exactly if it is offered again, and takes others down only for a reason; other calls change nothing |
| Executors.Executor.Connected | src/client/executor.hh:162-175 | nothing is followed yet, unplaced Wants are offered again, exactly the placed jobs are to be followed again |
| Executors.Executor.Disconnected | src/client/executor.hh:178-184 | nothing is followed, nothing else changes |
| Executors.Executor.TakeWants | src/client/executor.hh:187-209 | takes what is to be followed again, then wantable jobs up to the thread limit, most urgent first, and leaves none over while threads are free |
| Executors.Executor.SortTop | src/client/executor.hh:199-201 | the most urgent of the wantable jobs first, as far as there is room |
| Executors.Executor.Unsent | src/client/executor.hh:212-221 | exactly the jobs whose Wants did not go out are offered again |
| Executors.Executor.TakeCancels | src/client/executor.hh:223-226 | all queued cancels, once each |
| Executors.Executor.OnAssigned | src/client/executor.hh:228-249 | a wanted job is assigned, an assigned one moves, a running one remembers the new place |
| Executors.Executor.OnCached | src/client/executor.hh:251-256 | a wanted job ends successfully; any other job that ends with it was blocked and has its reason |
| Executors.Executor.OnUnplaceable | src/client/executor.hh:258-270 | notes the time on the first notice only |
| Executors.Executor.OnPlaceable | src/client/executor.hh:272-277 | forgets that time |
| Executors.Executor.Reap | src/client/executor.hh:280-295 | every overdue job fails as unplaceable, or is cancelled by an earlier one in a run that stops on failure; others end only for a reason; looks again no later than the next one is due |
| Executors.Executor.Next | src/client/executor.hh:299-311 | starts an assigned job at its place, none only if none is assigned |
| Executors.Executor.Finished | src/client/executor.hh:318-323 | a running job ends; any other job that ends with it has its reason: inputs all ended and one failed, a run that stops, or one abandoned; other calls are ignored |
| Executors.Executor.Bounced | src/client/executor.hh:325-348 | goes where it was redirected, or gives up after the retries, or is offered again, or ends if stopping or abandoned; stays followed exactly if it does not end, and takes others down only for a reason |
| Executors.Executor.Abandon | src/client/executor.hh:352-361 | every wantable or wanted job ends as lost, or is cancelled in a run that stops on failure; running jobs stay, and assigned ones while the run keeps going; others end only for a reason |
| Executors.Executor.Unblock | src/client/executor.hh:413-427 | offers a job without open inputs, unless an input failed or the run stops or is abandoned, and then with that outcome |
| Executors.Executor.Release | src/client/executor.hh:429-434 | the same, settled at once |
| Executors.Executor.Settle | src/client/executor.hh:439-460 | the failure cascade: every job that ends besides the first has its reason and did not run, jobs that ended stay, each end of a followed job queues one cancel, the counts stay exact, and without keepGoing a failure leaves only running and ended jobs |
| Executors.Executor.ReleaseDependants | src/client/executor.hh:472-489 | every blocked dependant waits for one input less per edge and notes the first failure; those left with none are offered or queued to end, with the reason |
| Executors.Executor.StopAll | src/client/executor.hh:491-500 | stops the run: every job that neither runs nor ended is to be ended, as failed |
| Executors.Executor.OnlyReadyRun | src/client/executor.hh:187-209 | a job that is wantable, wanted, assigned or running has all its inputs done successfully |
| Executors.Executor.WaitingIsExact | src/client/executor.hh:400-489 | a blocked job waits for exactly its edges from jobs that are not done, and at least one |
| Executors.Executor.CascadeIsExact | src/client/executor.hh:439-489 | while the run goes on, the jobs that end with one that ended are exactly those whose inputs have all ended and one failed |
| Executors.WaitsForInputs | src/client/executor.hh:95-115 | a blocked job waits exactly while some input has not ended, and names a failed input exactly if one failed |
| Executors.CausedMore | src/client/executor.hh:439-500 | reasons stay right while more jobs end |
| Executors.Executor.DoneIsNotFollowed | src/client/executor.hh:465-470 | no job that ended stays followed |
| Executors.Executor.NotFollowed | src/client/executor.hh:178-184 | nothing is followed without a stream or when all jobs ended |
| Executors.Executor.SomethingToDo | src/client/executor.hh:400-489 | while jobs of an acyclic graph remain some job is not blocked |
| Executors.Executor.AbandonedEnds | src/client/executor.hh:352-361 | after abandon, when nothing of an acyclic graph is assigned or running every job is done |
| JobGraph.SomeUnblocked | src/client/executor.hh:400-489 | below any open job of an acyclic graph is an open job that is not blocked |
| JobGraph.AcyclicAdd | src/client/executor.hh:94-115 | a new job deeper than its inputs keeps the graph acyclic |
| JobGraph.AcyclicInput | src/client/executor.hh:117-136 | one more input that is less deep keeps the graph acyclic |
| JobGraph.GraphFinish | src/client/executor.hh:439-489 | a job that ends owes its dependants exactly one release per edge |
| JobGraph.GraphRelease | src/client/executor.hh:472-489 | one release keeps every waiting count exact and never below zero |
| JobGraph.GraphAddInput | src/client/executor.hh:117-136 | one more input keeps every waiting count exact |
| JobGraph.MovedOk | src/client/executor.hh:400-406 | a change of state keeps the lists, the cancels and the follow marks in step |
| ClientRun.Run.Flush | src/client/build.cc:280-317 | on a live stream the Wants and Cancels sent so far fold to exactly the followed jobs; each cancel goes out once; a stream is half-closed only with nothing left and nothing followed, and then nothing more is written on it |
| ClientRun.Run.Write | src/client/build.cc:287-298 | a failed write ends the stream and takes the Wants of the batch back |
| ClientRun.Run.Attach | src/client/build.cc:457-463 | on a new stream exactly the followed jobs are believed followed, and every wanted or placed job is among them |
| ClientRun.Run.Detach | src/client/build.cc:465-470 | no stream, the jobs left |
| ClientRun.Run.Handle | src/client/build.cc:409-416 | after a batch of answers, or a report, reaping or abandoning, and the flush, belief and follow marks agree |
| ClientRun.Run.FlushAll | src/client/build.cc:320-346 | a flush on its own does the same |
| ClientRun.Run.Apply | src/client/build.cc:409-447 | an event without a flush keeps the books in step, and a half-closed stream with nothing to say |
| ClientRun.Run.Recover | src/client/build.cc:351-380 | a missing input becomes a job unless it is one, and the running build waits for exactly that, unfollowed, or goes on as its end says; the books stay in step |
| ClientRun.Run.AddJob | src/client/build.cc:215-245 | a derivation of the request becomes a job with these inputs; the books stay in step |
| ClientRun.Run.Step | src/client/build.cc:251-481 | whatever happens, the books stay in step and the graph acyclic; if it flushes, belief is what is followed |
| ClientRun.Run.Drive | src/client/build.cc:251-481 | any sequence of adds, streams, batches, single events, flushes and recoveries keeps the run valid; after one that ends with a flush belief is what is followed; while jobs remain one can go on; once abandoned with none placed all have ended; nothing is written on a half-closed stream if jobs come only before that or from a running build |
| ClientRun.Run.GoesOn | src/client/executor.hh:400-489 | in every such run some job is not blocked while jobs remain, and abandoning ends them all once none is placed |
| ClientRun.BelievedWants | src/client/build.cc:302-311 | sending Wants adds exactly those jobs to what is believed |
| ClientRun.BelievedCancels | src/client/build.cc:299-301 | sending Cancels removes exactly those |
| ClientRun.BeliefKept | src/client/build.cc:280-317 | an event that unfollows only with a Cancel queued keeps belief and queue in step |
| Leases.Builder.OnExpect | src/daemon/coordinator.cc:78-95 | a lease is added or renumbered, a claimed one kept; while draining it is given back at once |
| Leases.Builder.OnRevoke | src/daemon/coordinator.cc:118-137 | a running build is only marked; any other lease ends with a Done |
| Leases.Builder.Claim | src/daemon/coordinator.cc:97-103 | marks the lease and nothing else |
| Leases.Builder.Admit | src/daemon/coordinator.cc:139-151 | nothing without a lease; else claims it and tells whether it already runs |
| Leases.Builder.Finished | src/daemon/coordinator.cc:153-178 | the lease is gone and a Done is to be sent, also without a lease |
| Leases.Builder.TakeUnclaimed | src/daemon/coordinator.cc:255-269 | takes exactly the unclaimed leases asked for, each with one Done |
| Leases.EveryLeaseEndsWithDone | src/daemon/coordinator.cc:78-178 | in every critical section a lease leaves the table only with a Done to send |
| LeaseProtocol.NoSlotLeaks | src/daemon/coordinator.cc:78-290 | in every run, what the scheduler counts as running over an unbroken session is in the Expect table, or its Expect or its Done is in flight or about to be sent |
| LeaseProtocol.SettledAgree | src/daemon/coordinator.cc:78-290 | with nothing in flight, the scheduler counts only leases the worker holds |
| LeaseProtocol.SlotCanBeFreed | src/daemon/coordinator.cc:78-290 | in every run each counted slot comes free by finishing the lease and delivering messages alone |
| LeaseProtocol.StepKeeps | src/daemon/coordinator.cc:78-290 | every step of worker, channel and scheduler keeps the invariant |
| LeaseProtocol.SnapshotKeeps | src/daemon/coordinator.cc:503-509 | the send function is set before the table is copied, so what leaves the table later is announced on this session |
| LeaseProtocol.HelloKeeps | src/daemon/scheduler.hh:515-557 | reconciling with the Hello loses no lease that ended since it was written |
| LeaseProtocol.StaleKeeps | src/daemon/dispatcher.cc:621-627 | messages of an older session cannot bring back what it counted |
| LeaseProtocol.WriteKeeps | src/daemon/coordinator.cc:276-280 | a Done written to the session is in flight; one that could not be written broke it |
| LeaseProtocol.AdoptedRuns | src/daemon/scheduler.hh:534-554 | a Hello makes exactly the reported paths run on that worker |
| LeaseProtocol.EndedRuns | src/daemon/scheduler.hh:559-598 | a Done or a give-back takes exactly that path off the worker |
| LeaseProtocol.OthersOnlyTake | src/daemon/scheduler.hh:414-631 | events of clients and of other workers never add to what runs on this one |
| UploadClaims.Claims.Enter | src/daemon/upload-claims.hh:24-31 | drops finished claims; the new claim if nobody has an unfinished one on the path, else theirs |
| Uploads.WaitsForOlder | src/daemon/main.cc:459-465 | an import waits only for claims older than the one it holds |
| Uploads.NoDeadlock | src/daemon/main.cc:426-477 | in every state that meets the invariant some upload not over can step |
| Uploads.NeverStuck | src/daemon/main.cc:426-477 | for any number of uploads, any interleaving and any failures: some upload that is not over can step |
| Uploads.StepKeeps | src/daemon/main.cc:426-477 | reading, claiming, waiting, importing, failing and the final wait each keep the invariant |
| Uploads.ReferencesFirst | src/daemon/main.cc:460-471 | a path is added only once the references its upload brings are in the store |
| Uploads.FinishedIsStored | src/daemon/main.cc:472-477 | an upload that finishes leaves all of its stream in the store |
| Uploads.OneClaimAtATime | src/daemon/upload-claims.hh:24-31 | no path has two unfinished claims |
| UploadProgress.WorkShrinks | src/daemon/main.cc:426-477 | every step an upload can take, also a failure, uses up work |
| UploadProgress.EveryRunEnds | src/daemon/main.cc:426-477 | every run of such steps, whoever steps and whatever fails, is at most as long as the work left, and one that cannot go on has ended all uploads |
| UploadProgress.AllEnd | src/daemon/main.cc:426-477 | from every state a run without failures ends all uploads |
| UploadOrder.UnorderedCanDeadlock | src/daemon/main.cc:459-471 | whatever stream does not list references first, two streams that do and a run without failures leave all three waiting |
| UploadOrder.SafeExactlyIfOrdered | src/client/build.cc:82-85 | a stream never deadlocks beside streams in order, in any interleaving and with any failures, exactly if it is in order itself |
| UploadOrder.DeadlockedForever | src/daemon/main.cc:448-458 | uploads that all wait, wait for good unless one fails or is cancelled |
| UploadOrder.Close | src/daemon/main.cc:459-471 | once the first upload waits for a later reference behind two uploads that wait in turn, all three end up waiting |
| TopDown.NextBatch | src/top-down.hh:28-56 | the level and whole levels below it, each all that is new under the one before, until none is left or the next does not fit; no node is in two batches, and a batch is at most the larger of the budget and the level's fresh nodes |
| TopDown.Below | src/top-down.hh:40-47 | the unqueried nodes one level down |
| TopDown.TopDownWalk.QueryBatch | src/top-down.hh:77-88 | what is known to be held is exact for every queried node |
| TopDown.TopDownWalk.IsHeld | src/top-down.hh:90-95 | the answer from the queried keys is the truth about the store |
| TopDown.TopDownWalk.Ask | src/top-down.hh:112-112 | the batches of a walk are disjoint, and bounded |
| TopDown.TopDownWalk.Sift | src/top-down.hh:113-121 | the level is sorted into held and missing; the children of the missing come next |
| TopDown.TopDownWalk.Run | src/top-down.hh:105-124 | the result is the nodes reached from the roots through nodes that are all not held |
| TopDown.MissingTopDown | src/top-down.hh:127-134 | the same, for every budget |
| TopDown.ClosedHasAll | src/top-down.hh:105-124 | a set with the lacking roots and the lacking children of its nodes has every such node |
| TopDown.HeldBelowSuffices | src/top-down.hh:3-6 | if holding a node means holding its children, the result is all reached nodes that are not held |
| BuildSpec.SolutionIsUnique | src/top-down.hh:143-148 | on an acyclic graph the equations for what is needed and missing have one solution |
| BuildSpec.AllDecided | src/top-down.hh:204-223 | when nothing is left to decide, every node of an acyclic graph was decided |
| BuildSpec.DecideOne | src/top-down.hh:206-215 | deciding a node whose users are all decided leaves every earlier decision right |
| BuildSpec.OrderAfter | src/top-down.hh:216-220 | nodes are decided after all their users; those made ready are new |
| BuildSpec.CountsAfter | src/top-down.hh:216-220 | user counts are exact, above zero before each decrement, and reach zero exactly when the last user is decided |
| BuildSpec.MoreNeeds | src/top-down.hh:211-214 | the needs map is what requests and made nodes ask for |
| BuildWalks.BuildWalk.constructor | src/top-down.hh:226-260 | the whole graph below the roots is collected, with exact user counts and needs; the first level is the roots without users |
| BuildWalks.BuildWalk.Explore | src/top-down.hh:243-254 | collects the graph once per node and ends |
| BuildWalks.BuildWalk.QueryAhead | src/top-down.hh:173-189 | afterwards every key of these nodes that the store holds is known, and only keys that can be had are |
| BuildWalks.BuildWalk.FetchLacking | src/top-down.hh:191-202 | asks only for keys the store does not hold, of needed nodes that are not forced; afterwards known and to be had are the same for them |
| BuildWalks.BuildWalk.Release | src/top-down.hh:216-220 | each child has one user less; exactly those left with none come next, once |
| BuildWalks.BuildWalk.Decide | src/top-down.hh:206-223 | decides each node of the level once and returns exactly the nodes that are ready then |
| BuildWalks.BuildWalk.Run | src/top-down.hh:262-273 | missing is the solution, every node was decided, and fetches were only for keys of needed nodes that are not forced |
| BuildWalks.MissingForBuild | src/top-down.hh:276-283 | the one solution, whatever the budget and the answers to queries |
| BuildWalks.LackingTest | src/top-down.hh:167-171 | needed and not held, as computed, is lacking as defined |
| SchedReactor.Reactor.Send | src/daemon/sched-reactor.hh:67-91 | accepts in order while open and below the limit; else closes the stream |
| SchedReactor.Reactor.Fill | src/daemon/sched-reactor.hh:42-50 | moves at most 1024 messages from the front of the queue, in order |
| SchedReactor.Reactor.WriteNext | src/daemon/sched-reactor.hh:152-167 | the holder of the claim takes a batch, or gives the claim up when closed or empty |
| SchedReactor.Reactor.StartWrite | src/daemon/sched-reactor.hh:162-163 | one write more in the trace, never beside another or after Finish |
| SchedReactor.Reactor.OnWriteDone | src/daemon/sched-reactor.hh:113-126 | goes on, or closes and gives the claim up |
| SchedReactor.Reactor.End | src/daemon/sched-reactor.hh:170-180 | closes, and leaves a check to come |
| SchedReactor.Reactor.MaybeDone | src/daemon/sched-reactor.hh:182-193 | finishes when reads are done and nobody holds the claim |
| SchedReactor.Reactor.Run | src/daemon/sched-reactor.hh:67-193 | every interleaving keeps: nothing lost, doubled or reordered, the queue within its limit, somebody writing unless closed or empty |
| SchedReactor.Reactor.WrittenIsPrefix | src/daemon/sched-reactor.hh:67-167 | what is written is an in-order prefix of what was accepted |
| SchedReactor.Reactor.FinishedExactly | src/daemon/sched-reactor.hh:182-193 | once all callbacks ran, Finish was called exactly if reads are done and no write is outstanding |
| SchedReactor.FinishIsLast | src/daemon/sched-reactor.hh:182-193 | Finish is called at most once and nothing follows it |
| SchedReactor.OneWriteAtATime | src/daemon/sched-reactor.hh:29-40 | a write completes before the next action of the stream |
| LogSpill.Le32RoundTrip | src/daemon/log-spill.hh:126-156 | the length reads back from its four bytes |
| LogSpill.RecordAt | src/daemon/log-spill.hh:126-135 | each record lies at the sum of the sizes before it, in full |
| LogSpill.ReadBack | src/daemon/log-spill.hh:150-166 | kind, length and text of each record read back from the file |
| LogSpill.KeptIsPrefix | src/daemon/log-spill.hh:106-117 | the log is the longest prefix of what was appended that fits, clamped, with one marker after it exactly if that was not all |
| LogSpill.KeptFits | src/daemon/log-spill.hh:97-101 | it overshoots the cap by the marker at most |
| LogSpill.Spill.Append | src/daemon/log-spill.hh:106-136 | the file holds the log, or a prefix of it after an I/O failure |
| LogSpill.Spill.Drain | src/daemon/log-spill.hh:145-169 | from any record on, emits exactly what is written up to the first record that cannot be read, and returns the end |
| LogSpill.FollowSpill | src/daemon/log-spill.hh:218-242 | returns true once the owner is finished, and then every record was drained once and emitted exactly if it and those before it in its drain could be read; all of them exactly if no read failed |
| LogSpill.AllIfNoReadFailed | src/daemon/log-spill.hh:218-242 | what was emitted is everything exactly if no read failed |
| LogSpill.LostAfterFailedRead | src/daemon/log-spill.hh:141-166 | a record that cannot be read is lost, with what the same drain found after it |
| LogSpill.LossIsSilent | src/daemon/log-spill.hh:218-242 | a run that answers true and emitted nothing of the one record there was |
| NarSplit.GreedyBound | src/client/nar-fetcher.hh:443-449 | N times any load is at most the total plus N - 1 times the largest |
| NarSplit.TwiceBest | src/client/nar-fetcher.hh:443-449 | at most 2 - 1/N times the best possible |
| NarSplit.RoomLeft | src/client/nar-fetcher.hh:443-449 | while all items are larger than a third of the best, some group has room for the next |
| NarSplit.LargestFirst | src/client/nar-fetcher.hh:438-449 | largest first: at most 4/3 - 1/(3N) times the best possible |
| NarFetcher.SortedSorts | src/client/nar-fetcher.hh:438-441 | the sorted list is a permutation, largest first |
| NarFetcher.SortedStable | src/client/nar-fetcher.hh:438-441 | paths of equal size keep their order |
| NarFetcher.LeastLoaded | src/client/nar-fetcher.hh:445-446 | the first group with the least load |
| NarFetcher.Split | src/client/nar-fetcher.hh:438-449 | every path is in exactly one group, each went to a group with the least so far |
| NarFetcher.SplitIsAssignment | src/client/nar-fetcher.hh:442-449 | any split of the same paths is an assignment with the same loads |
| NarFetcher.FairIsNearBest | src/client/nar-fetcher.hh:438-449 | both bounds, against every other split of the same paths |
| NarFetcher.FairIsNearAverage | src/client/nar-fetcher.hh:438-449 | the bound by total and largest, for the groups themselves |
| NarFetcher.Fetcher.StartPending | src/client/nar-fetcher.hh:434-456 | nothing stays pending; the sessions started are exactly the non-empty groups of a fair split, in order, and have all of it |

## Left out

- Path hashing: two store paths with the same hash part are one derivation, so a path is its hash part here.
- Entry, worker and system table limits and the exceptions they throw mid-update.
- Floating-point rounding and NaN: priorities and locality scores are real numbers.
- 64-bit wrap-around of loads, byte counts and offsets: they are unbounded integers.
- FreeIndexes.FreeIndex.MaxFree: the bitmask is a sequence of flags, so bit scanning is a search for the highest flag.
- SchedCore.Core.Want: asks for a system name unless the entry has one, as the event layer supplies its default; without one the invariant fails at the next Want that names one.
- SchedCore.Core.PutBack: states only the invariant, because what it restores is the queue the invariant describes.
- ClientRun.Run.Recover: the producer of a missing input lies less deep than the build, as derivation graphs have no cycles.
- LeaseProtocol.NoSlotLeaks: one worker; Load messages and the drain flag change no lease, so any thread may see either value of the flag.
- Uploads.NeverStuck: the NAR spool, publishing and the byte streams are not modelled; an import, a stream or a caller may fail at any point.
- Uploads.StepKeeps: the last wait goes through others' paths in the order they were read, not by name.
- UploadClaims.Claims.Enter: which claims are finished is given, as futures are.
- SchedReactor.Reactor.Run: object lifetime and gRPC's own threads are not modelled.
- LogSpill.FollowSpill: waiting and waking are turns of a loop; the owner acts between its steps; which offsets can be read is given per turn.
- Message texts, log lines, metrics and statistics.
- Clocks: times are given; backoff, keepalive and timeouts are events that may happen.
- Leader election, TLS, authentication, ACLs, OIDC, the sandbox and options: table lookups and foreign code.
- Substituter lookups of the dispatcher: whether a path is cached is given.
- Endpoint discovery, the pump between sockets and streams, the NAR spool and download sessions.
