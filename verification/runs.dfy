/**
 Whole runs: what holds after any sequence of operations, started from nothing.
 */
module Runs {
  import opened Redis
  import opened Model
  import opened Machine
  import opened Placement
  import opened Dag
  import opened Edges
  import opened Dependents
  import opened Removals
  import opened Attempts
  import opened Effects

  ghost predicate Right(w: System)
  {
    OnePlace(w.s) && DagRight(w) && AttemptsRight(w.s)
  }

  lemma StartIsRight()
    ensures Right(START)
  {
    forall id
      ensures Places(EMPTY, id) == 0
    {
    }
    forall j
      ensures CounterOf(EMPTY, map[], j)
    {
    }
  }

  lemma FailKeepsRest(w: System, op: Op)
    requires op.Fail? && OnePlace(w.s) && DagRight(w) && Legal(w, op)
    ensures OnePlace(Effect(w.s, op)) && DagRight(Apply(w, op))
  {
    var id := op.id;
    if Postpones(w.s, id, op.fatal) {
      PostponePlaces(w.s, id, w.s.vault[id], op.at);
      PostponeCalm(w.s, id, op.at);
      CalmKeepsDag(w, Effect(w.s, op));
    } else {
      KillKeepsAll(w, id, op.reason, op.now, op.keep, op.publish);
    }
  }

  lemma ClosingPlaces(s: State, op: Op)
    requires op.Complete? && OnePlace(s) && op.id in s.active
    ensures OnePlace(Closing(s, op))
  {
    assert op.id in s.vault by {
      PlaceAtMostOnce(s, op.id);
    }
    FinalizeKeepsPlace(s, op.id, Outcome(true, op.value, op.progress), op.now, op.keep, op.publish);
  }

  lemma ThenTakenPlaces(s: State, t: State, op: Op)
    requires op.Complete? && OnePlace(t)
    requires s == if op.fetch.Some? then Dequeue(t, op.now, op.fetch.value - op.now, op.publish) else t
    ensures OnePlace(s)
  {
    if op.fetch.Some? {
      DequeuePlaces(t, op.now, op.fetch.value - op.now, op.publish);
    }
  }

  lemma FinishedPlaces(s: State, op: Op)
    requires op.Complete? && OnePlace(s) && op.id in s.active
    ensures OnePlace(Finished(s, op))
  {
    ClosingPlaces(s, op);
    ThenTakenPlaces(Finished(s, op), Closing(s, op), op);
  }

  lemma CompletePlaces(s: State, op: Op)
    requires op.Complete? && OnePlace(s) && op.id in s.active
    ensures OnePlace(Settle(s, op))
  {
    FinishedPlaces(s, op);
    UnblockAllPlaces(Finished(s, op), op.id, op.order);
  }

  lemma RenewPlaces(s: State, id: Id, now: int, lease: int)
    requires OnePlace(s) && id in s.active && id in s.vault
    ensures OnePlace(Renew(s, id, now, lease))
  {
    RenewKeepsPlaceIff(s, id, s.vault[id], now, lease);
  }

  lemma RetryKeepsRest(w: System, id: Id)
    requires OnePlace(w.s) && DagRight(w) && Legal(w, RetryDead(id))
    ensures OnePlace(Effect(w.s, RetryDead(id))) && DagRight(Apply(w, RetryDead(id)))
  {
    if id in w.s.dlq {
      RetryKeepsPlaceIff(w.s, id, Revived(w.s, id));
      RetryKeepsDag(w, id);
    } else {
      NothingKeepsDag(w);
    }
  }

  lemma NothingKeepsDag(w: System)
    requires OnePlace(w.s) && DagRight(w)
    ensures DagRight(After(w, w.s))
  {
    CalmKeepsDag(w, w.s);
  }

  lemma QueueOpsKeep(w: System, op: Op)
    requires OnePlace(w.s) && DagRight(w) && Legal(w, op)
    requires op.Add? || op.AddLater? || op.AddMany? || op.PushTokens? || op.Take? || op.TakeMany?
    ensures OnePlace(Effect(w.s, op)) && Calm(w.s, Effect(w.s, op))
  {
    var s := w.s;
    match op {
      case Add(id, job) =>
        AddPlaces(s, id, job);
        AddCalm(s, id, job);
      case AddLater(id, job, at) =>
        AddDelayedPlaces(s, id, job, at);
        AddDelayedCalm(s, id, job, at);
      case AddMany(items) =>
        AddBulkPlaces(s, items);
        AddBulkCalm(s, items);
      case PushTokens(n) =>
        PlacesFrame(s, Effect(s, op));
      case Take(now, lock, publish) =>
        DequeuePlaces(s, now, lock, publish);
        DequeueCalm(s, now, lock, publish);
      case TakeMany(n, lease) =>
        BatchDequeuePlaces(s, n, lease);
        BatchDequeueCalm(s, n, lease);
    }
  }

  lemma SweepsKeep(w: System, op: Op)
    requires OnePlace(w.s) && DagRight(w) && Legal(w, op)
    requires op.PromoteDue? || op.RecoverExpired? || op.SweepZombie?
    ensures OnePlace(Effect(w.s, op)) && Quiet(w.s, Effect(w.s, op)) && CopiesRight(Effect(w.s, op))
  {
    var s := w.s;
    match op {
      case PromoteDue(now) =>
        PromotePlaces(s, now);
        PromoteAllCalm(s, ByScore(Between(s.delayed, 0, now)));
        CopiesKept(s, Promote(s, now));
      case RecoverExpired(now) =>
        RecoverPlaces(s, now);
        RecoverQuiet(s, now);
      case SweepZombie(id, now, timeout) =>
        ZombiePlaces(s, id, now, timeout);
        ZombieQuiet(s, id, now, timeout);
    }
  }

  lemma RenewKeepsRest(w: System, id: Id, now: int, lease: int)
    requires OnePlace(w.s) && DagRight(w) && id in w.s.active
    ensures OnePlace(Effect(w.s, RenewLease(id, now, lease))) && Calm(w.s, Effect(w.s, RenewLease(id, now, lease)))
  {
    PlaceAtMostOnce(w.s, id);
    RenewPlaces(w.s, id, now, lease);
    RenewCalm(w.s, id, now, lease);
  }

  lemma DagOpsKeep(w: System, op: Op)
    requires OnePlace(w.s) && DagRight(w) && Legal(w, op)
    requires op.Depend? || op.Complete? || op.Fail? || op.RetryDead? || op.DrainAll? || op.Delete? || op.CleanUp?
    ensures OnePlace(Effect(w.s, op)) && DagRight(Apply(w, op))
  {
    if op.Depend? {
      AddDependentPlaces(w.s, op.id, op.job);
      DependKeepsDag(w, op.id, op.job);
    } else if op.Complete? {
      CompletePlaces(w.s, op);
      CompleteKeepsDag(w, op);
    } else if op.Fail? {
      FailKeepsRest(w, op);
    } else if op.RetryDead? {
      RetryKeepsRest(w, op.id);
    } else if op.DrainAll? {
      DrainPlaces(w.s);
      DrainKeepsDag(w);
    } else if op.Delete? {
      DeletionKeepsRest(w, op);
    } else {
      CleanKeepsRest(w, op);
    }
  }

  lemma CheckKeepsRest(w: System, id: Id)
    requires OnePlace(w.s) && DagRight(w)
    ensures OnePlace(Effect(w.s, CheckUnblocked(id))) && DagRight(Apply(w, CheckUnblocked(id)))
  {
    PromoteIfUnblockedIsIdle(w.s, w.awaits, id, StoredPriority(w.s, id), StoredTimestamp(w.s, id));
    NothingKeepsDag(w);
  }

  /** Every operation keeps every job in one place and every dependency right. */
  lemma StepKeepsRest(w: System, op: Op)
    requires OnePlace(w.s) && DagRight(w) && Legal(w, op)
    ensures OnePlace(Effect(w.s, op)) && DagRight(Apply(w, op))
  {
    if op.Depend? || op.Complete? || op.Fail? || op.RetryDead? || op.DrainAll? || op.Delete? || op.CleanUp? {
      DagOpsKeep(w, op);
    } else if op.CheckUnblocked? {
      CheckKeepsRest(w, op.id);
    } else if op.RenewLease? {
      RenewKeepsRest(w, op.id, op.now, op.lease);
      CalmKeepsDag(w, Effect(w.s, op));
    } else if op.PromoteDue? || op.RecoverExpired? || op.SweepZombie? {
      SweepsKeep(w, op);
      QuietKeepsDag(w, Effect(w.s, op));
    } else {
      QueueOpsKeep(w, op);
      CalmKeepsDag(w, Effect(w.s, op));
    }
  }

  lemma StepKeepsRight(w: System, op: Op)
    requires Right(w) && Legal(w, op)
    ensures Right(Apply(w, op))
  {
    StepKeepsRest(w, op);
    StepKeepsAttempts(w, op);
  }

  /** After any legal run every job is in one place, every counter says how many
      parents are awaited, and no attempt was counted twice. */
  lemma {:induction false} RunKeepsRight(w: System, ops: seq<Op>)
    requires Right(w) && AllLegal(w, ops)
    ensures Right(Run(w, ops))
    decreases |ops|
  {
    if ops == [] {
    } else {
      StepKeepsRight(w, ops[0]);
      RunKeepsRight(Apply(w, ops[0]), ops[1..]);
    }
  }

  lemma EveryRunIsRight(ops: seq<Op>)
    requires AllLegal(START, ops)
    ensures Right(Run(START, ops))
  {
    StartIsRight();
    RunKeepsRight(START, ops);
  }

  // ---- Each dependent is released once, by the last parent it waited for ----

  lemma BlockedIffAwaiting(w: System, j: Id)
    requires DagRight(w)
    ensures j in w.s.blocked <==> Awaiting(w.awaits, j) != {}
  {
    assert CounterOf(w.s, w.awaits, j);
  }

  /** Stored, and queued once: among the prioritized at its score when the record has a
      priority, in the waiting list otherwise. */
  predicate QueuedByPriority(s: State, j: Id)
  {
    && j in s.vault
    && if s.vault[j].priority > 0
       then j in s.prioritized && s.prioritized[j] == Score(s.vault[j].priority, s.vault[j].timestamp) && j !in s.waiting
       else j in s.waiting && j !in s.prioritized
  }

  lemma ReleasedIsQueued(s: State, t: State, j: Id)
    requires OnePlace(s) && j in s.blocked && t.vault == s.vault && ReleasedAt(s, t, j)
    ensures QueuedByPriority(t, j)
  {
    PlaceAtMostOnce(s, j);
    assert j in t.waiting <==> multiset(t.waiting)[j] > 0;
  }

  lemma UnblockQueues(s: State, p: Id, order: seq<Id>, j: Id)
    requires OnePlace(s) && NoDup(order) && j in s.blocked && j !in UnblockAll(s, p, order).blocked
    ensures QueuedByPriority(UnblockAll(s, p, order), j)
  {
    UnblockExact(s, p, order, j);
    ReleasedIsQueued(s, UnblockAll(s, p, order), j);
  }

  lemma SettleQueues(s: State, op: Op, j: Id)
    requires op.Complete? && OnePlace(s) && op.id in s.active && NoDup(op.order)
    requires j in s.blocked && j !in Settle(s, op).blocked
    ensures QueuedByPriority(Settle(s, op), j)
  {
    FinishedPinned(s, op);
    FinishedPlaces(s, op);
    UnblockQueues(Finished(s, op), op.id, op.order, j);
  }

  lemma LeavingMeansCompletion(w: System, op: Op, j: Id)
    requires Right(w) && Legal(w, op)
    requires j in w.s.blocked && j !in Effect(w.s, op).blocked
    ensures (op.Complete? && Awaiting(w.awaits, j) == {op.id}) || (op.Delete? && j in op.ids)
  {
    StepKeepsRight(w, op);
    BlockedIffAwaiting(w, j);
    BlockedIffAwaiting(Apply(w, op), j);
    if op.Depend? {
      PlaceAtMostOnce(w.s, j);
    }
  }

  /** A parked job leaves `blocked` only in the step that completes the one parent it
      still waited for, and that step queues it for the workers; or it is deleted. */
  lemma ReleasedByLastParent(w: System, op: Op, j: Id)
    requires Right(w) && Legal(w, op)
    requires j in w.s.blocked && j !in Effect(w.s, op).blocked
    ensures if op.Complete? then Awaiting(w.awaits, j) == {op.id} && QueuedByPriority(Effect(w.s, op), j)
            else op.Delete? && j in op.ids && j !in Effect(w.s, op).vault
  {
    LeavingMeansCompletion(w, op, j);
    if op.Complete? {
      SettleQueues(w.s, op, j);
    } else {
      DeleteAllGone(Cut(w.s, Members(op.ids)), op.ids);
    }
  }

  /** A job that is not parked becomes so only by being registered anew: whoever was
      released stays released for as long as it is stored. */
  lemma ParkedOnlyAtRegistration(w: System, op: Op, j: Id)
    requires Right(w) && Legal(w, op)
    requires j !in w.s.blocked && j in Effect(w.s, op).blocked
    ensures op.Depend? && op.id == j && j !in w.s.vault
  {
    StepKeepsRight(w, op);
    BlockedIffAwaiting(w, j);
    BlockedIffAwaiting(Apply(w, op), j);
  }
}
