/**
 What workers and the zombie watchdog do around the scripts, each as the commands
 it sends, proved to have the effect of one operation of the machine.
 */
module Worker {
  import opened Redis
  import opened Model
  import opened Store
  import opened Machine
  import opened Dependents
  import opened Sweep

  lemma FinishedPlain(s: State, op: Op)
    requires op.Complete? && op.fetch == None
    ensures Finished(s, op) == Closing(s, op)
  {
  }

  lemma FinishedFetching(s: State, op: Op)
    requires op.Complete? && op.fetch.Some?
    ensures Finished(s, op) == Dequeue(Closing(s, op), op.now, op.fetch.value - op.now, op.publish)
  {
  }

  method FinishSteps(q: QueueStore, op: Op) returns (next: Option<Id>)
    requires op.Complete?
    modifies q
    ensures q.Now() == Finished(old(q.Now()), op)
    ensures next == if op.fetch.Some? then Next(Closing(old(q.Now()), op)) else None
  {
    ghost var s := q.Now();
    var lease := if op.fetch.Some? then op.fetch.value else 0;
    next := q.FinalizeScript(op.id, Outcome(true, op.value, op.progress), op.now, op.keep, op.publish, op.fetch.Some?, lease);
    if op.fetch.Some? {
      FinishedFetching(s, op);
    } else {
      FinishedPlain(s, op);
    }
  }

  /** _postFinalize of a completed job. */
  method ReleaseDependents(q: QueueStore, id: Id, flow: bool) returns (ghost order: seq<Id>)
    modifies q
    ensures Enumerates(order, Kids(old(q.childEdges), id))
    ensures q.Now() == if flow then UnblockAll(old(q.Now()), id, order) else old(q.Now())
  {
    if flow {
      var n;
      n, order := q.UnblockScript(id);
    } else {
      order := SMembers(Kids(q.childEdges, id));
    }
  }

  /** finalizeAndFetch for a job that succeeded: finalizeJob, then unblock when the
      worker's copy carries a flow flag. The job taken on the way is handed to the pool. */
  method FinalizeAndFetch(q: QueueStore, op: Op, flow: bool) returns (next: Option<Id>, ghost order: seq<Id>)
    requires op.Complete?
    modifies q
    ensures Enumerates(order, Kids(old(q.childEdges), op.id))
    ensures q.Now() == if flow then UnblockAll(Finished(old(q.Now()), op), op.id, order) else Finished(old(q.Now()), op)
    ensures next == if op.fetch.Some? then Next(Closing(old(q.Now()), op)) else None
  {
    ghost var s := q.Now();
    next := FinishSteps(q, op);
    FinishedPinned(s, op);
    assert q.Now().childEdges == s.childEdges;
    order := ReleaseDependents(q, op.id, flow);
  }

  method BuryParentStep(q: QueueStore, p: Id, now: int)
    modifies q
    ensures q.Now() == BuryParent(old(q.Now()), p, now)
  {
    if p in q.vault {
      var job := q.vault[p].(status := Dead, failedReason := Some("child failed"));
      q.vault, q.dlq := q.vault[p := job], q.dlq[p := job];
      UnparkDead(q, p);
      q.failed := q.failed[p := now];
    }
  }

  method UnparkDead(q: QueueStore, p: Id)
    modifies q`blocked, q`count, q`named
    ensures q.blocked == old(q.blocked) - {p} && q.count == old(q.count) - {p} && q.named == old(q.named) - {p}
  {
    q.blocked := q.blocked - {p};
    q.count := q.count - {p};
    q.named := q.named - {p};
  }

  method BuryParentsLoop(q: QueueStore, parents: seq<Id>, now: int)
    modifies q
    ensures q.Now() == BuryParents(old(q.Now()), parents, now)
  {
    var i := 0;
    while i < |parents|
      invariant 0 <= i <= |parents|
      invariant BuryParents(q.Now(), parents[i..], now) == BuryParents(old(q.Now()), parents, now)
    {
      BuryParentStep(q, parents[i], now);
      i := i + 1;
    }
  }

  /** finalizejob for a job that failed for good, with the dead branch of _postFinalize. */
  method FinalizeDead(q: QueueStore, id: Id, job: Job, reason: string, now: int, keep: int, publish: bool)
    modifies q
    ensures q.Now() == Kill(old(q.Now()), id, job, reason, now, keep, publish)
  {
    var next := q.FinalizeScript(id, Outcome(false, reason, ""), now, keep, publish, false, 0);
    q.dlq := q.dlq[id := job.(status := Dead, failedReason := Some(reason))];
    if job.flow {
      BuryParentsLoop(q, job.parents, now);
    }
  }

  method PostponeSteps(q: QueueStore, id: Id, job: Job, at: int)
    modifies q
    ensures q.Now() == Postpone(old(q.Now()), id, job, at)
  {
    q.vault := q.vault[id := job.(status := Retrying)];
    q.active := q.active - {id};
    q.SignalScript(id, at);
  }

  /** handleFailure. The worker decides by its own copy of the job, and writes that copy
      back even when the stored job was deleted or changed meanwhile. */
  method HandleFailure(q: QueueStore, id: Id, job: Job, unrecoverable: bool, reason: string, now: int, at: int, keep: int,
                       publish: bool)
    modifies q
    ensures q.Now() == if !unrecoverable && job.attempts < job.maxretries
                       then Postpone(old(q.Now()), id, job, at)
                       else Kill(old(q.Now()), id, job, reason, now, keep, publish)
  {
    if unrecoverable {
      FinalizeDead(q, id, job, reason, now, keep, publish);
    } else if job.attempts < job.maxretries {
      PostponeSteps(q, id, job, at);
    } else {
      FinalizeDead(q, id, job, reason, now, keep, publish);
    }
  }

  /** Renewal writes the worker's copy, stamped, and moves the lease. */
  method RenewSteps(q: QueueStore, id: Id, job: Job, now: int, lease: int)
    modifies q`vault, q`active
    ensures q.Now() == RenewCopy(old(q.Now()), id, job, now, lease)
    ensures id in old(q.vault) && job == old(q.vault)[id] ==> q.Now() == Renew(old(q.Now()), id, now, lease)
  {
    q.vault := q.vault[id := job.(processedOn := Some(now))];
    q.active := q.active[id := lease];
  }

  // ---- The zombie watchdog ----

  method BurySteps(q: QueueStore, id: Id, now: int)
    requires id in q.vault
    modifies q`vault, q`dlq, q`active, q`failed
    ensures q.Now() == BuryActive(old(q.Now()), id, now)
  {
    var job := q.vault[id].(status := Dead, failedReason := Some("zombie timeout"));
    q.vault := q.vault[id := job];
    q.dlq := q.dlq[id := job];
    q.active := q.active - {id};
    q.failed := q.failed[id := now];
  }

  method SweepOne(q: QueueStore, id: Id, now: int, timeout: int)
    modifies q
    ensures q.Now() == BuryZombie(old(q.Now()), id, now, timeout)
  {
    if id !in q.active || q.active[id] > now {
      return;
    }
    if id !in q.vault {
      q.active := q.active - {id};
      return;
    }
    var job := q.vault[id];
    var since := if job.processedOn.Some? && job.processedOn.value != 0 then job.processedOn.value else job.timestamp;
    if now - since > timeout {
      BurySteps(q, id, now);
    }
  }

  method SweepZombies(q: QueueStore, now: int, timeout: int)
    modifies q
    ensures q.Now() == BuryZombies(old(q.Now()), ByScore(old(q.active)), now, timeout)
    ensures forall x :: WatchedAt(old(q.Now()), q.Now(), x, now, timeout)
    ensures RestSame(old(q.Now()), q.Now()) && q.tokens == old(q.tokens)
  {
    ghost var s := q.Now();
    var ids := ByScore(q.active);
    var i := 0;
    while i < |ids|
      invariant 0 <= i <= |ids|
      invariant BuryZombies(q.Now(), ids[i..], now, timeout) == BuryZombies(old(q.Now()), ids, now, timeout)
    {
      SweepOne(q, ids[i], now, timeout);
      i := i + 1;
    }
    forall x
      ensures WatchedAt(s, q.Now(), x, now, timeout)
    {
      WatchdogExact(s, now, timeout, x);
    }
    WatchdogExact(s, now, timeout, 0);
  }
}
