# TaurusMQ in Dafny

TaurusMQ is a job queue whose state lives in Redis. Every file in `src/lua/` is one
atomic step over a waiting list, ZSETs for prioritized, active, delayed, completed and
failed ids, hashes for stored, blocked and dead jobs, token lists, and edge sets with
counters for dependencies. Workers, producers, schedulers and maintenance loops run those
steps in any order. This project models one queue and proves what holds of it over whole
runs.

## How it is built

- `redis.dfy`, `model.dfy`: the Redis structures as values, one `State` for a queue, and
  the effect of every script as a function from state to state.
- `store.dfy`, `worker.dfy`: the same structures as fields of a class. Every script, and
  every sequence of commands a worker or the watchdog sends around the scripts, is a method
  with the source's loops and branches, proved to have exactly the effect of that function.
- `machine.dfy`: one operation for each step, cascade deletion and `clean` included, `Legal`
  for what the code relies on without checking it, and runs. Two history variables, which
  parents a job still awaits and when it was stored, are tracked beside the state; no step
  depends on them. `reach.dfy` has the walks along children sets a deletion follows.
- `effects.dfy`: what single steps do, field by field, from any state, and that they leave
  every other job alone.
- `placement.dfy`, `dag.dfy`, `edges.dfy`, `dependents.dfy`, `removals.dfy`, `attempts.dfy`,
  `runs.dfy`: the invariants of every legal run. `records.dfy`, `events.dfy`: what the stored
  records say at each place, and which events a step publishes. `retries.dfy`, `scores.dfy`,
  `progress.dfy`: what follows for retries, for the order of service, and for liveness.
- `retention.dfy`, `sweep.dfy`, `dispatch.dfy`, `bulk.dfy`: eviction; lease recovery, the
  zombie watchdog and promotion; batch against single dequeue; bulk against single add.
- `tokens.dfy`, `wakeup.dfy`: whoever queues a job pays a token, and any number of fetchers,
  each with a bounded pool, that block, drain, clear and look again. `fullpool.dfy`,
  `ghosts.dfy`: how a full pool, and queued ids without a job, cost them a wake-up.
- `flowcheck.dfy`, `flows.dfy`, `unfold.dfy`, `flowruns.dfy`, `handouts.dfy`: the structure
  check of a flow, the orders in which a flow can be registered and the parents each job
  gets, the tree of jobs an accepted flow becomes, flows inside live runs, and that jobs are
  handed out in the order the flow asks for.
- `cascade.dfy`, `clean.dfy`, `limiter.dfy`, `pages.dfy`, `pool.dfy`: deletion with all
  dependents, deletion by age, the rate limiter, paging, the executor.
- `pitfalls.dfy`: for each assumption, a concrete queue, reached by the code's own steps
  where it takes several, in which the code does harm without it.

## What the code relies on

The code enforces none of these. `Machine.Legal` states those that concern single steps; the
bullets on settling in one step, on one-step grain, and on added jobs say how the steps are
cut and what the producers hand over. Where a bullet names a lemma ending in `Iff`, that
lemma gives the exact condition under which the code does no harm without the assumption.

- Only the holder of a lease settles or renews: the id is in `active`
  (`Placement.FinalizeKeepsPlaceIff`, `Placement.PostponeKeepsPlaceIff`,
  `Placement.RenewKeepsPlaceIff`).
- Settling is one step: `finalizeJob` and the `unblock` that follows it are two round trips,
  and a dependent registered between them is decremented by a parent it was not counted for
  (`Pitfalls.RegisteredInBetweenReleasesEarly`, `Dag.UnblockKeepsCountersIff`).
- When a new dependent is registered, no pending parent is listed twice, every pending one is
  stored in the same queue and will call `unblock`, and every one that counts as done has
  settled (`Dependents.DependKeepsDagIff`).
- A dead job is retried only while it is dead, and only when all its registered dependents
  wait for it (`Placement.RetryKeepsPlaceIff`, `Dependents.RetryKeepsDagIff`).
- A job that dies for good and carries a flow flag lists only parents that are gone or dead.
  The code's cascade walks `job.parent`, which lists what the job waited for, so it buries
  dependencies rather than dependents (`Dependents.KillKeepsAllIff`).
- Draining takes no job that has children (`Dependents.DrainKeepsDagIff`).
- A cascade deletion meets no prioritized job (`Removals.DeletionKeepsPlaceIff`), and `clean`
  no job that still has children (`Removals.CleanKeepsDagIff`).
- `handleFailure`, lease renewal, a cascade deletion, a `clean` and each watchdog decision are
  one step. In the machine the worker's copy of a job is the stored one; the methods of
  `worker.dfy` take any copy.
- Added jobs were never picked up before.

## Where code and documentation part

The code is followed in each case.

- `README.md:49` of the repository says that the parent of a child which exhausts its retries
  stays blocked or becomes failed-dependent. No such state exists, and the cascade in
  `src/core/worker.js:549-568` walks the other way.
- The same passage has retries run out. `handleFailure` writes `processedOn` back, so the next
  pickup does not count, and a retry from the DLQ keeps `processedOn` too. An ordinary failure
  kills a job exactly when `maxretries` is 0, or is 1 and the job was never retried from the
  DLQ (`Retries.RetriesRunOutIff`). With 2 or more, one job can be handed out any number of
  times (`Retries.RetriedForEver`).
- A comment in `src/core/worker.js:198-203` states that no job can strand without a token. It
  can, in three ways. A burst that deletes the tokens and then fills its pool leaves what it has
  no room for: with the default room for one task, `FullPool.FullPoolLosesTheWakeup` is such a
  run. Throughout a run every queued job keeps a token, one on its way, or room in the pool
  of a fetcher in a burst, exactly when each deletion of the tokens, and each burst that is
  quit, leaves enough of these for all that is queued (`Wakeup.CoveredIffSafe`); an unsafe
  deletion can lose the wake-up (`Wakeup.UnsafeClearCanLose`). Bursts that are not cut short
  lose none (`Wakeup.NoLostWakeup`). Two neighbouring ids without a stored job, with anything
  behind them, are the second way (`Ghosts.WakeupLostIff`): two cascade deletions are enough to
  get there (`Ghosts.DeletionLosesTheWakeup`). The third is a batch that names one id both
  immediately and delayed (`Bulk.BulkIsFoldOfAdds`, `Pitfalls.RepeatedIdLosesItsToken`).

## Modelling choices

Ids are natural numbers, since only equality and the tie order of ZSETs matter. Wake-up
tokens are interchangeable, so the two token lists are counts. Times, scores and priorities
are unbounded integers, and priorities are natural. A stored payload is a record of the
fields the scripts read or write, and a field the code leaves null is `None`. All children
sets together are one relation of (parent, child) pairs, and likewise all parent sets. The
clock, leases, retention limits, the order SMEMBERS returns, and whether events are
published are parameters.

## Model

| member | source | states |
|---|---|---|
| Redis.ByScoreSorted | src/lua/finalizeJob.lua:89 | ZRANGE lists every member once, strictly increasing by score and then member. |
| Store.QueueStore.AddJobScript | src/lua/addJob.lua:34-36 | Adding is refused with 0 for a known id and changes nothing then; otherwise the job is stored, queued by priority, and one token pushed. |
| Effects.AddExact | src/lua/addJob.lua:34-91 | A new job is stored as given, queued by its own priority, at the end of the list without one, and paid with one token; no other job changes, and a known id changes nothing. |
| Store.QueueStore.AddDependentScript | src/lua/addJob.lua:39-80 | The code returned tells what happened: 0 if the id was stored and nothing changed, 1 if it was new and is now parked, 2 if it was new and is now queued and not parked. |
| Effects.DependExact | src/lua/addJob.lua:39-91 | A new dependent is linked to exactly the listed parents; it is parked, with its counter, exactly when some listed parent is neither completed nor in the DLQ, and queued by its priority otherwise. |
| Store.QueueStore.AddDelayedScript | src/lua/addDelayed.lua:13-31 | Deduplicated delayed insert with its token and event. |
| Effects.AddDelayedExact | src/lua/addDelayed.lua:13-31 | A new delayed job is stored as given, stays delayed through every promote before its time, and is queued by every one from then on. |
| Store.QueueStore.AddBulkScript | src/lua/addBulk.lua:35-67 | Per-item deduplicated insert, flags telling which items were created, no token pushed. |
| Sweep.PostponedComesBack | src/lua/signal.lua:1-9 | A postponed job stays delayed through every promote before its time, and is queued by every one from then on, where its priority says. |
| Effects.PostponeExact | src/core/worker.js:625-633 | A postponed job is stored as the worker's copy with status retrying, is out of active, delayed to its time, and pays a delayed token; no other job changes. |
| Store.QueueStore.DequeueScript | src/lua/dequeue.lua:10-52 | Pops the least prioritized id, else the head of the list; a stored job gets its lease, stamp and, on first pickup, its attempt; an id without a job is dropped and nothing is handed out. |
| Effects.DequeueLeases | src/lua/dequeue.lua:32-41 | The job handed out is active and stamped with the time; every lease sweep before that time plus the lock duration leaves it untouched, and every one from then on reaps it. |
| Effects.FetchLeases | src/lua/finalizeJob.lua:173-177 | The same for the job finalizeJob fetches, with the absolute lease it is told. |
| Store.QueueStore.BatchDequeueScript | src/lua/batchdequeue.lua:16-65 | Both phases: pops until n stored jobs are found, then walks the head of the list and removes only the ids it hands out. |
| Effects.BatchLeases | src/lua/batchdequeue.lua:28-57 | The same for every job of a batch, stamped with the lease time, as the script does. |
| Store.QueueStore.FinalizeScript | src/lua/finalizeJob.lua:39-186 | Settles, evicts and publishes; with fetch-next it gives the same state, events and job as finalizing without it and then dequeuing at the same time with the same lease. |
| Effects.FinalizeExact | src/lua/finalizeJob.lua:43-123 | The finalized job gets the status of its outcome, its finish time, return value or failure reason, and progress when given; its other fields, and every other record not evicted, stay; the evicted are gone from the vault and their set, and dead ones from the DLQ. |
| Store.QueueStore.UnblockScript | src/lua/unblock.lua:13-67 | Runs the release step once for each member of the children set and returns their number. |
| Effects.UnblockExact | src/lua/unblock.lua:13-63 | Released are exactly the parked children whose counter this parent spends, each queued where its stored priority says, at its score or at the end of the list; every other job stays parked or queued as it was. |
| Store.QueueStore.PromoteIfUnblockedScript | src/lua/promoteIfUnblocked.lua:31-56 | Promotes when the counter exists and is not positive, and changes nothing otherwise. |
| Effects.PromoteIfUnblockedExact | src/lua/promoteIfUnblocked.lua:31-56 | If it promotes, the job is no longer parked or counted and is queued by the priority the caller passes, with a token; no other job changes. |
| Store.QueueStore.PromoteScript | src/lua/promote.lua:17-57 | Queues every due delayed id in order of its time, with a token and event for each. |
| Sweep.PromoteExact | src/lua/promote.lua:17-50 | Exactly the due ids leave delayed, each queued where its stored priority says; every other id stays as it was in delayed and in the queue. |
| Sweep.PromoteJoinsInOrder | src/lua/promote.lua:17-50 | Exactly the due ids without priority join the list, at its end, in the order of their times. |
| Store.QueueStore.RecoverScript | src/lua/recoverStalled.lua:23-92 | Deals with every expired lease in order and refills the tokens. |
| Store.QueueStore.RetryScript | src/lua/retry.lua:19-57 | Takes a dead job out of the DLQ and failed, stores and requeues it, without duplicating it in the list. |
| Effects.RetryExact | src/lua/retry.lua:22-55 | The retried job is out of the DLQ and failed, stored as given, at its score if it has a priority and otherwise last and only once in the list; no other job changes. |
| Store.QueueStore.DrainScript | src/lua/drain.lua:11-38 | The batched loops delete exactly the waiting, prioritized and delayed jobs, and all tokens. |
| Effects.DrainExact | src/lua/drain.lua:11-38 | Nothing is queued or delayed and no token is left; gone from the vault are exactly the jobs that were queued or delayed, and the rest is untouched. |
| Worker.FinalizeAndFetch | src/core/worker.js:582-612 | Finalize, then release the dependents when the worker's copy carries a flow flag; the next job is the one a dequeue after the finalize hands out. |
| Worker.FinalizeDead | src/core/worker.js:538-570 | A dead job is finalized, copied to the DLQ, and the stored jobs of its own parent list are buried in order. |
| Effects.KillExact | src/core/worker.js:538-570 | With a flow flag exactly the stored jobs of the dead job's parent list are dead, in the DLQ and failed, and no longer parked or counted; every other job is as finalizing and the DLQ copy left it. |
| Worker.HandleFailure | src/core/worker.js:614-649 | For any copy of the job the worker holds, stored still or not: postpones exactly when the error is recoverable and the copy's attempts are below its maxretries, and writes the copy back; kills otherwise. |
| Placement.PostponeKeepsPlaceIff | src/core/worker.js:625-633 | Postponing keeps one place per job if and only if the job is gone, active or delayed. |
| Placement.RenewKeepsPlaceIff | src/core/worker.js:321-326 | Renewing keeps one place per job if and only if the job is gone or still active. |
| Effects.RenewExact | src/core/worker.js:321-326 | A renewal writes the worker's copy with a new stamp and the lease; the watchdog then buries the job exactly when the lease has ended and more than the timeout has passed since the renewal. |
| Sweep.RenewedLeaseHolds | src/core/worker.js:321-326 | A renewed lease survives every sweep before it ends, untouched, and is reaped by every one from then on. |
| Worker.SweepZombies | src/core/maintenance.js:173-212 | After the loop over the active ids every id is as the watchdog's rule demands: buried, dropped or untouched, by its own lease, job and age. |
| Sweep.WatchdogExact | src/core/maintenance.js:177-212 | Buried are exactly the stored jobs whose lease has ended and that were active for longer than the timeout; dropped exactly the ended leases without a job; nothing else changes. |
| Placement.FinalizeKeepsPlaceIff | src/lua/finalizeJob.lua:79-123 | Finalizing keeps every stored job in exactly one place if and only if the id was leased or already settled the same way (for an id without a job: if retention removes it at once). |
| Placement.RetryKeepsPlaceIff | src/lua/retry.lua:22-55 | Retrying keeps one place per job if and only if the id is not stored, is failed, or is queued where retry queues it. |
| Placement.BuryParentKeepsPlaceIff | src/core/worker.js:549-568 | Burying a listed parent keeps one place per job if and only if it is not stored, or is failed or parked. |
| Placement.BatchDequeuePlaces | src/lua/batchdequeue.lua:16-65 | A batch moves jobs without losing or doubling any. |
| Placement.RecoverPlaces | src/lua/recoverStalled.lua:25-78 | The lease sweep keeps every job in one place. |
| Dag.CountIsExactIff | src/lua/addJob.lua:46-64 | The counted number equals the number of distinct pending parents if and only if no pending parent is listed twice. |
| Dag.UnblockSteps | src/lua/unblock.lua:15-65 | The loop takes exactly one step for each child and touches no other job's counter. |
| Dag.UnblockKeepsCountersIff | src/lua/unblock.lua:17-63 | Releasing keeps every counter equal to the number of awaited parents if and only if the children set is exactly the jobs that await this parent. |
| Dag.PromoteIfUnblockedIsIdle | src/lua/promoteIfUnblocked.lua:31-56 | In every right state the second release path does nothing. |
| Dependents.DependKeepsDagIff | src/lua/addJob.lua:39-80 | Registering a new dependent keeps counters, edge symmetry and registration order if and only if no pending parent is listed twice, every pending one is stored and flagged, and every one counted as done has settled. |
| Dependents.CompleteKeepsDag | src/core/worker.js:546-548 | Completing, with eviction, fetch-next and release, keeps them too. |
| Dependents.KillKeepsAllIff | src/core/worker.js:538-570 | A job dies for good without harm to places and dependencies if and only if it carries no flow flag or every parent it lists is gone, dead, or itself. |
| Dependents.RetryKeepsDagIff | src/lua/retry.lua:22-55 | A retry keeps the dependencies right if and only if every registered dependent of the dead job waits for it. |
| Dependents.DrainKeepsDagIff | src/lua/drain.lua:11-36 | Draining keeps the dependencies right if and only if no job it takes has children. |
| Attempts.StepKeepsAttempts | src/lua/dequeue.lua:25-33 | Every operation keeps attempts at most 1, and 0 while processedOn is null; whoever is active or dead was picked up. |
| Retries.RetriesRunOutIff | src/core/worker.js:625-649 | After any legal run, a recoverable failure of a running job, or a lease sweep that finds its lease ended, kills it if and only if maxretries is 0, or is 1 and the job was never retried from the DLQ. |
| Retries.RetriedForEver | src/core/worker.js:625-633 | For every n there is a legal run from the empty queue that hands one job with maxretries of at least 2 out n times. |
| Attempts.AttemptsRiseAtFirstPickup | src/lua/dequeue.lua:25-33 | No operation but its own retry changes a stored job's attempts or whether processedOn is set, except a dequeue, alone or inside finalizeJob, that makes it active and does both at once. |
| Runs.StepKeepsRight | src/lua/unblock.lua:15-65 | Every legal operation, deletion and cleaning included, keeps one place per job, exact counters, symmetric edges and the attempts rule. |
| Runs.EveryRunIsRight | src/lua/addJob.lua:34-91 | So they hold after every legal run from an empty queue. |
| Records.StepKeepsRecords | src/lua/unblock.lua:45-58 | Every legal operation keeps: stored jobs in the list have no priority and prioritized ones have one; the status names the place; a completed job finished at its score; a dead one has its record in the DLQ. |
| Records.EveryRunHasFittingRecords | src/lua/finalizeJob.lua:43-77 | So that holds after every legal run from an empty queue. |
| Records.PayloadNeverChanges | src/lua/recoverStalled.lua:34-66 | No operation changes the priority, timestamp, retry limit, parent list or flow flag of a job that stays stored. |
| Events.StepTells | src/lua/unblock.lua:52-58 | Events are only appended, and a legal step appends an event exactly when it makes the move it tells of: release or promotion, pickup, delay, completion, death, requeueing, removal. |
| Runs.ReleasedByLastParent | src/lua/unblock.lua:21-63 | A parked job leaves blocked only in the step that completes the one parent it still awaited, and that step queues it once: at its score among the prioritized if its record has a priority, in the list otherwise; or it is deleted. |
| Runs.ParkedOnlyAtRegistration | src/lua/addJob.lua:78-80 | Nobody is parked again after release while stored. |
| Progress.NoDeadlock | src/lua/addJob.lua:51-80 | From every parked job a chain of awaited jobs leads to one that can run or is dead. |
| Progress.NobodyWaitsInACircle | src/lua/addJob.lua:51-80 | No job occurs twice on a chain of jobs each awaiting the next. |
| Progress.SomeProgress | src/lua/unblock.lua:24-63 | While a job runs, is queued, or can come due, some productive step is possible: a dequeue that hands out, a completion, or a promote that finds something. |
| Progress.EveryScheduleFinishes | src/core/flowProducer.js:60-133 | Productive steps, in any order and with any parameters, end after at most Work of them and kill nobody; once none is possible, every stored job is completed, dead before, delayed to a time below 0, or parked on a chain that ends in such a job. |
| Progress.EveryFlowCanFinish | src/core/flowProducer.js:60-133 | From every right state there is such a schedule to that end. |
| Progress.AllButTheDeadComplete | src/lua/unblock.lua:24-63 | If nobody waits for a dead or never due job, that continuation completes every other stored job, whatever else has died. |
| Scores.StepKeepsScores | src/lua/promote.lua:24-46 | Every operation keeps the score of each prioritized job the one computed from its stored priority and timestamp. |
| Scores.EveryRunServesInOrder | src/lua/dequeue.lua:10-19 | After any legal run, if the prioritized jobs have timestamps less than 1e11 ms apart, repeated dequeue serves them in lexicographic order of priority and timestamp, and behind them the list in its order. |
| Dispatch.ScoreOrder | src/lua/addJob.lua:19-24 | For timestamps less than 1e11 ms apart, score order is lexicographic order of priority and timestamp. |
| Dispatch.ScoreIsExact | src/lua/addJob.lua:19-24 | For priorities up to 90000 and times within 150 years of the epoch the code picks, a double holds the score exactly. |
| Dispatch.TakeEachIsHead | src/lua/dequeue.lua:10-41 | n dequeues hand out the first n queued jobs in order and leave the others queued as they were. |
| Dispatch.ServedInPriorityOrder | src/lua/dequeue.lua:10-19 | Draining by repeated dequeue yields a lexicographically sorted sequence, then the list. |
| Dispatch.BatchIsRepeatedDequeue | src/lua/batchdequeue.lua:16-65 | A batch of n hands out the ids that n dequeues do, min(n, queued) of them, and leaves the same state but for lease and pickup stamps and events. |
| Retention.BeyondIff | src/lua/finalizeJob.lua:86-89 | The loop considers exactly the ids that at least `keep` others are newer than. |
| Retention.RetainedExactly | src/lua/finalizeJob.lua:83-123 | Retained are exactly the `keep` newest and the older ones that still have a counter or children. |
| Retention.NoLimitRetainsAll | src/lua/finalizeJob.lua:86 | Without a positive limit nothing is evicted. |
| Retention.ListedParentsAreKept | src/lua/finalizeJob.lua:91-98 | With symmetric edges no job named in a dependent's parent set is evicted. |
| Sweep.SweepExact | src/lua/recoverStalled.lua:25-90 | Each expired id is requeued, dead-lettered or dropped as its job demands, attempts untouched, requeued ids in the order of their leases; any other id, the delayed and settled jobs and the dependencies are as before; tokens cover all queued jobs. |
| Sweep.RecoverJoinsInOrder | src/lua/recoverStalled.lua:25-78 | Exactly the expired jobs that have retries left and no priority join the list, at its end, in the order of their leases. |
| Sweep.LeasesAreLive | src/lua/recoverStalled.lua:25-78 | No lease between 0 and now survives. |
| Bulk.AddBulkLoop | src/core/queue.js:193-208 | The caller's loop counts the created items by whether their id is one the batch delays. |
| Bulk.AddBulkOnQueue | src/core/queue.js:181-214 | Script plus token push as one effect. |
| Bulk.BulkIsFoldOfAdds | src/core/queue.js:142-214 | addBulk stores and flags exactly what single adds do; its tokens agree if and only if no created immediate item shares its id with a delayed one, and are too few otherwise. |
| Tokens.EffectPaid | src/lua/addJob.lua:82-90 | Every operation but addBulk, whose caller owes the tokens, and drain, which empties the queue, takes no token and adds one for every id that joins the queue. |
| Tokens.AddManyOwes | src/lua/addBulk.lua:48-61 | addBulk queues no more than the immediate items it creates. |
| Wakeup.EmptyHandedMeansEmpty | src/core/worker.js:190-208 | In a right queue a single or batch dequeue that finds nothing leaves an empty queue. |
| Wakeup.MoveKeepsCoveredIff | src/core/worker.js:184-213 | Each move of a fetcher, of its pool, or of anybody else keeps every queued job covered by a token, an owed token or room in a burst's pool; deleting the tokens and quitting a burst if and only if what then remains is enough. |
| Wakeup.CoveredIffSafe | src/core/worker.js:121-213 | Over every interleaving of any number of fetchers, with pools of any size, with all other operations, that holds throughout if and only if every such deletion and quitting is safe. |
| Wakeup.QuietMeansTokens | src/core/worker.js:139-169 | So when no burst is under way there are at least as many tokens, owed ones included, as queued jobs. |
| Wakeup.UnsafeClearCanLose | src/core/worker.js:205-210 | After an unsafe deletion with nothing owed, the fetchers alone can end with work queued, no token and no burst. |
| Wakeup.MoveKeepsAwake | src/core/worker.js:184-213 | Each move that cuts no burst short keeps: queued work implies a token, an owed token or a burst under way. |
| Wakeup.NoLostWakeup | src/core/worker.js:139-213 | So over every interleaving in which no burst is cut short by a full pool or quit, no wake-up is lost. |
| Wakeup.AsleepMeansEmpty | src/core/worker.js:198-208 | From an empty queue, with all safe or no burst cut short: when no burst is under way and no token is left or owed, nothing is queued. |
| FullPool.FullPoolLosesTheWakeup | src/core/worker.js:189-210 | A run of legal steps with room for one task ends with the fetcher blocked, no token, and a stored job queued. |
| FlowCheck.StructureCheck.Check | src/core/flowProducer.js:28-56 | The recursive check over a set of visited keys computes the verdict function, terminates on every graph, and leaves the set as it was on acceptance. |
| FlowCheck.AcceptedIff | src/core/flowProducer.js:29-56 | Accepted if and only if every reachable node is well-formed and no walk from the root repeats a key. |
| FlowCheck.RejectedWalk | src/core/flowProducer.js:30-48 | Every rejection is deserved by a walk, and a circular one reports the keys along it. |
| FlowCheck.AcceptedIsAcyclic | src/core/flowProducer.js:44-55 | Walks of an accepted flow are no longer than its keys are many. |
| Flows.ProcessNode | src/core/flowProducer.js:63-133 | Registering children one after the other is one of the modelled interleavings. |
| Flows.FlowIsOrdered | src/core/flowProducer.js:63-133 | In every interleaving every node is registered once, lists no parent twice, and lists only parents registered before it with a flag that triggers release, or named by the caller. |
| Flows.FlowListsItsParents | src/core/flowProducer.js:63-133 | In every interleaving exactly the nodes of the tree are registered, and a job lists a parent if and only if its caller does, or it is a fan-in node and the parent one of its children, or the parent is a fan-out node and it is one of the children; only a root that is neither fan-out nor flagged lacks the flow flag. |
| Flows.InterleavesIff | src/core/flowProducer.js:105-109 | The interleavings considered are all ways to merge what the children do. |
| FlowRuns.FlagsNeverChange | src/core/worker.js:546-548 | No operation changes the flow flag of a job that stays stored. |
| FlowRuns.FlowRunIsLegal | src/core/flowProducer.js:60-133 | A flow registered amid any legal operations makes a legal run, if none of its jobs is removed before the last of its own dependents is registered. |
| FlowRuns.FlowsFinish | src/core/flowProducer.js:60-133 | So after it a legal continuation kills nobody and brings every stored job to its end. |
| Handouts.HandedOutAfterItsParents | src/lua/addJob.lua:39-80 | Along every legal run in which a dependent stays stored, it is out of blocked only after each parent it listed has completed or died. |
| Handouts.FlowIsHandedOutInOrder | src/core/flowProducer.js:63-133 | So whatever goes on while a flow is registered and after: a fan-in node is handed out only after each of its children, and a child of a fan-out node only after that node, has completed or died. |
| Unfolding.AcceptedFlowRegisters | src/core/flowProducer.js:48-133 | What the check accepts unfolds into a finite tree with a job for every occurrence of an object, and every interleaving registers it in order; a fan-in object with options that is reached twice also accumulates its earlier children as parents, which the tree does not show. |
| Unfolding.SameKeyIsRefusedThoughFinite | src/core/flowProducer.js:43-46 | The check is stricter than that: two objects with one key, one below the other, are refused. |
| Cascade.Search | src/core/maintenance.js:88-117 | The search collects each id once, and exactly those reachable in the children graph as it was before the search cut edges. |
| Cascade.HandleDeletion | src/core/maintenance.js:88-159 | Search and pipeline together delete exactly the collected ids. |
| Removals.DeleteAllGone | src/core/maintenance.js:131-159 | The pipeline takes the deleted ids out of the vault, the DLQ, every queue and set but prioritized, with their counters and their own edge sets, and nothing else. |
| Removals.NothingNamesTheDeleted | src/core/maintenance.js:131-140 | With symmetric edges no surviving edge names a deleted id. |
| Removals.DeletionKeepsPlaceIff | src/core/maintenance.js:142-149 | One place per job survives a deletion if and only if no deleted job is prioritized. |
| Removals.DeletionKeepsRest | src/core/maintenance.js:88-159 | Then the dependencies stay right too: no remaining job waits for a deleted one. |
| Clean.CleanQueue | src/core/queue.js:267-290 | The batched loop with its early exit deletes exactly the first `limit` ids old enough, from the set and the vault, and returns how many. |
| Clean.OldestGo | src/core/queue.js:274-275 | At most `limit` ids go, all settled by the cutoff, and none left was older than one that went. |
| Clean.AsManyGo | src/core/queue.js:267-290 | As many go as are old enough, or `limit` if there are more, each once. |
| Removals.CleanPlaces | src/core/queue.js:278-283 | Cleaning keeps every job in one place. |
| Removals.CleanKeepsDagIff | src/core/queue.js:278-283 | Unlike retention it has no guard for flows: dependencies stay right if and only if no deleted job still has children. |
| Limiting.Limiter.Acquire | src/lua/rateLimit.lua:11-36 | One call trims, admits or denies, and answers. |
| Limiting.RateIsBounded | src/lua/rateLimit.lua:14-23 | Over any run every window of the duration holds at most max admissions. |
| Limiting.ExpiryIsInvisible | src/lua/rateLimit.lua:21 | Expiry of the key changes no answer. |
| Limiting.WaitIsTight | src/lua/rateLimit.lua:24-35 | The wait lies in 1..duration; every call before it is over is denied and the first one after is admitted. |
| Limiting.ZeroMaxAdmitsNobody | src/lua/rateLimit.lua:24-35 | A maximum of 0 always denies and names the whole duration. |
| Pages.GetJobIds | src/core/queue.js:367-460 | The loop over kinds selects the slice start..end of the concatenated listing, deduplicated, reversed when asked. |
| Pages.PagesMeet | src/core/queue.js:375-454 | Two adjacent pages concatenate to the page that covers both. |
| Pages.ListingIsComplete | src/core/queue.js:368-370 | Over the default kinds the listing names every stored job exactly once. |
| Pages.KindsAreInOrder | src/core/queue.js:375-454 | The waiting kind lists the jobs in the order workers take them, and the other kinds by lease, due time or finish time. |
| Pages.ReverseExact | src/core/queue.js:456-460 | Without `asc` a page reads from its last id to its first, and reversing twice gives it back. |
| Pages.PagesCoverTheQueue | src/core/queue.js:375-456 | Consecutive pages add up to the whole listing and deduplication drops nothing. |
| Pool.Executor.RunInPool | src/core/worker.js:98-119 | A task starts when there is room and queues otherwise. |
| Pool.Executor.TaskEnded | src/core/worker.js:103-112 | A task that ends frees its place and starts the first queued one, if any. |
| Pool.PoolIsAlwaysRight | src/core/worker.js:98-119 | Over any interleaving: at most `concurrency` run, a queued task means exactly that many run, and tasks start once each in submission order. |
| Pool.EverythingFinishes | src/core/worker.js:103-112 | When tasks only end, everything submitted gets started and finished. |
| Pitfalls.LateCompletionRunsTwice | src/lua/finalizeJob.lua:79-84 | Added, taken, reaped, and then completed by its first worker, a job is both completed and next to run. |
| Pitfalls.RetriedParentReleasesEarly | src/lua/unblock.lua:21-24 | A parent that was dead at registration, retried, taken and completed releases its dependent while the other parent is running. |
| Pitfalls.RegisteredInBetweenReleasesEarly | src/core/worker.js:606-609 | So is one registered between finalize and release. |
| Pitfalls.EvictedParentStrands | src/lua/addJob.lua:57-64 | A completed and evicted parent counts as pending and strands the dependent. |
| Pitfalls.DrainStrands | src/lua/drain.lua:20-33 | Draining an awaited job strands the parked one. |
| Pitfalls.ParentListedTwiceStrands | src/lua/addJob.lua:46-64 | A parent listed twice is counted twice and released once. |
| Pitfalls.DeadJobBuriesItsCompletedParent | src/core/worker.js:549-568 | A job that dies marks a completed dependency failed. |
| Ghosts.WakeupLostIff | src/core/worker.js:184-213 | An undisturbed burst of single dequeues, with any room, ends with work queued and no token if and only if the queue holds more than the room or has two neighbours without a job with something behind them, and either no token was there or a dequeue came back empty before the pool filled up. |
| Ghosts.ClearLosesIff | src/core/worker.js:205-210 | With a job behind every queued id, what follows a deletion of the tokens leaves work queued and no token if and only if more is queued than there is room for. |
| Ghosts.DeletionLosesTheWakeup | src/core/maintenance.js:142-149 | Two prioritized jobs, deleted, make the next fetcher, whatever its room, give up with a third job queued and no token. |
| Pitfalls.DeletedJobStaysPrioritized | src/core/maintenance.js:142-149 | A prioritized job that is deleted stays listed without a job. |
| Pitfalls.CleanStrands | src/core/queue.js:278-283 | A dead job that is awaited is cleaned away, and its dependent stays parked. |
| Pitfalls.RepeatedIdLosesItsToken | src/core/queue.js:193-208 | A batch naming one id both immediately and delayed pushes no token for the immediate one. |

## Left out

- Repeat and cron jobs: `scheduleNextRun` lists an id in delayed while it is active, which breaks one place per job by design, and cron-parser is not part of this model.
- A bound on executions: it does not follow from the code, as `Retries.RetriedForEver` shows.
- Failing the dependents of a dead job: the code does not do it.
- `_compensate`: it deletes the parent sets before it reads them, so its clean-up of children sets finds nothing.
- Cross-queue dependencies: one queue is modelled, and a parent completed elsewhere cannot be seen by `addJob`.
- Shared node objects in a flow: `processNode` adds parents to a node's own options, so an object reached twice accumulates them; flows are trees with distinct ids here.
- Attempts the worker adds to its own copies of a batch, `_executeBatch`, and progress updates in between.
- `changeDelay`, which moves a score, `obliterate`, which deletes all keys, and the dashboard's own calls of the scripts; REST and WebSocket servers, metrics and forecasting, which only present data.
- Pub/sub delivery, logging, connections, pausing, stopping and shutdown; events are modelled as the list the scripts publish.
- Why a burst is quit: pausing, stopping and the limiter are one move of a fetcher, which may come at any time. A token that a paused or limited fetcher pushes back, the shutdown token, and the check of the pool apart from the dequeue that follows it are not moves of their own; a task that takes its successor hands over its place in one move.
- Wake-up tokens of delayed jobs carry a time in the code; only their number is modelled.
- The wording of the failure reasons the watchdog and the cascade write; both are short constants here.
- Progress handed over with a failure: a job that dies is finalized without one.
- Payload encoding: JSON decoding of return values and progress, empty arrays, fields no script touches, log keys, batch counters and their time to live.
- Floating point: scores are exact integers; the code's doubles are exact up to a magnitude of 2^53.
- Wakeup.NoLostWakeup: covers batches that agree on which ids are delayed, because otherwise tokens are missing, as `Bulk.BulkIsFoldOfAdds` says.
- Cascade.HandleDeletion: is one step, though the code reads between its deletes; ids it deletes are assumed to belong to one queue.
- Limiting.RateIsBounded: assumes that members are unique and that Redis and the workers share a clock that does not run backwards.
- FlowRuns.FlowRunIsLegal: assumes that no job of the flow is removed before its last dependent is registered, because a completed job that is evicted in that time strands it.
- Progress.EveryScheduleFinishes: bounds productive steps; that workers and the scheduler go on taking them is not stated.
