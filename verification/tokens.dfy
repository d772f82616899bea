/**
 Tokens: whoever queues a job pushes one for it.
 */
module Tokens {
  import opened Redis
  import opened Model
  import opened Machine
  import opened Dag
  import opened Removals
  import opened Runs
  import opened Bulk

  /** How many ids are queued. */
  function Backlog(s: State): nat
  {
    |s.prioritized| + |s.waiting|
  }

  lemma BacklogIsQueued(s: State)
    ensures |Queued(s)| == Backlog(s)
  {
  }

  /** No token is taken, and every id that joins the queue brings one. */
  ghost predicate Paid(s: State, t: State)
  {
    t.tokens >= s.tokens && Backlog(t) + s.tokens <= Backlog(s) + t.tokens
  }

  lemma PaidChain(s: State, t: State, u: State)
    requires Paid(s, t) && Paid(t, u)
    ensures Paid(s, u)
  {
  }

  lemma EnqueueAddsOne(s: State, id: Id, priority: nat, timestamp: int)
    ensures Backlog(Enqueue(s, id, priority, timestamp)) <= Backlog(s) + 1
  {
    MapPut(s.prioritized, id, Score(priority, timestamp));
  }

  /** Queued in any way, with a token. */
  lemma QueuedPaid(s: State, t: State, id: Id, priority: nat, timestamp: int)
    requires t.tokens == s.tokens + 1
    requires Backlog(t) == Backlog(Enqueue(s, id, priority, timestamp))
    ensures Paid(s, t)
  {
    EnqueueAddsOne(s, id, priority, timestamp);
  }

  lemma ReleasePaid(s: State, t: State, id: Id)
    requires t.tokens == s.tokens + 1 && Backlog(t) == Backlog(Release(s, id))
    ensures Paid(s, t)
  {
    QueuedPaid(s, t, id, StoredPriority(s, id), StoredTimestamp(s, id));
  }

  lemma DequeuePaid(s: State, now: int, lock: int, publish: bool)
    ensures Paid(s, Dequeue(s, now, lock, publish))
  {
    PopPaid(s);
    if Next(s).Some? {
      PickPaid(Pop(s), Next(s).value, now, now + lock);
    }
  }

  lemma PopPaid(s: State)
    ensures Paid(s, Pop(s))
  {
    if s.prioritized != map[] {
      LessOne(s.prioritized, Least(s.prioritized));
    }
  }

  lemma PickPaid(s: State, id: Id, stamp: int, lease: int)
    requires id in s.vault
    ensures var t := Pick(s, id, stamp, lease); t.tokens == s.tokens && Backlog(t) == Backlog(s)
  {
  }

  lemma PopMinPaid(b: Batch, lease: int)
    requires b.s.prioritized != map[]
    ensures Paid(b.s, PopMin(b, lease).s)
  {
    LessOne(b.s.prioritized, Least(b.s.prioritized));
    if Least(b.s.prioritized) in b.s.vault {
      PickPaid(DropMin(b.s), Least(b.s.prioritized), lease, lease);
    }
  }

  lemma {:induction false} BatchPrioritizedPaid(b: Batch, n: nat, lease: int)
    ensures Paid(b.s, BatchPrioritized(b, n, lease).s)
    decreases |b.s.prioritized|
  {
    if |b.taken| >= n || b.s.prioritized == map[] {
    } else {
      LessOne(b.s.prioritized, Least(b.s.prioritized));
      PopMinPaid(b, lease);
      BatchPrioritizedPaid(PopMin(b, lease), n, lease);
      PaidChain(b.s, PopMin(b, lease).s, BatchPrioritized(PopMin(b, lease), n, lease).s);
    }
  }

  lemma TakeWaitingPaid(b: Batch, id: Id, lease: int)
    ensures Paid(b.s, TakeWaiting(b, id, lease).s)
  {
    DropFirstShrinks(b.s.waiting, id);
  }

  lemma {:induction false} BatchWaitingPaid(b: Batch, ids: seq<Id>, lease: int)
    ensures Paid(b.s, BatchWaiting(b, ids, lease).s)
    decreases |ids|
  {
    if ids == [] {
    } else {
      TakeWaitingPaid(b, ids[0], lease);
      BatchWaitingPaid(TakeWaiting(b, ids[0], lease), ids[1..], lease);
      PaidChain(b.s, TakeWaiting(b, ids[0], lease).s, BatchWaiting(TakeWaiting(b, ids[0], lease), ids[1..], lease).s);
    }
  }

  lemma BatchPaid(s: State, n: nat, lease: int)
    ensures Paid(s, BatchDequeue(s, n, lease).s)
  {
    var b := BatchPrioritized(Batch(s, []), n, lease);
    BatchPrioritizedPaid(Batch(s, []), n, lease);
    BatchWaitingPaid(b, StillWanted(b, n), lease);
    PaidChain(s, b.s, BatchDequeue(s, n, lease).s);
  }

  lemma UnblockOnePaid(s: State, p: Id, c: Id)
    ensures Paid(s, UnblockOne(s, p, c))
  {
    var u := Uncount(s, p, c);
    assert Paid(s, u);
    if Spent(s, c) && c in s.blocked {
      ReleasePaid(u, Unpark(u, c), c);
      PaidChain(s, u, Unpark(u, c));
    }
  }

  lemma {:induction false} UnblockPaid(s: State, p: Id, order: seq<Id>)
    ensures Paid(s, UnblockAll(s, p, order))
    decreases |order|
  {
    if order == [] {
    } else {
      UnblockOnePaid(s, p, order[0]);
      UnblockPaid(UnblockOne(s, p, order[0]), p, order[1..]);
      PaidChain(s, UnblockOne(s, p, order[0]), UnblockAll(UnblockOne(s, p, order[0]), p, order[1..]));
    }
  }

  lemma {:induction false} PromotePaid(s: State, ids: seq<Id>)
    ensures Paid(s, PromoteAll(s, ids))
    decreases |ids|
  {
    if ids == [] {
    } else {
      ReleasePaid(s, PromoteOne(s, ids[0]), ids[0]);
      PromotePaid(PromoteOne(s, ids[0]), ids[1..]);
      PaidChain(s, PromoteOne(s, ids[0]), PromoteAll(PromoteOne(s, ids[0]), ids[1..]));
    }
  }

  lemma RecoverOnePaid(s: State, id: Id, now: int)
    ensures Paid(s, RecoverOne(s, id, now))
  {
    if id in s.vault {
      if s.vault[id].attempts >= s.vault[id].maxretries {
        assert Paid(s, DeadLetter(s, id, now));
      } else {
        ReleasePaid(s, Requeue(s, id), id);
      }
    }
  }

  lemma {:induction false} RecoverPaid(s: State, ids: seq<Id>, now: int)
    ensures Paid(s, RecoverAll(s, ids, now))
    decreases |ids|
  {
    if ids == [] {
    } else {
      RecoverOnePaid(s, ids[0], now);
      RecoverPaid(RecoverOne(s, ids[0], now), ids[1..], now);
      PaidChain(s, RecoverOne(s, ids[0], now), RecoverAll(RecoverOne(s, ids[0], now), ids[1..], now));
    }
  }

  lemma FinalizePaid(s: State, id: Id, o: Outcome, now: int, keep: int, publish: bool)
    ensures Paid(s, Finalize(s, id, o, now, keep, publish))
  {
  }

  lemma ThenTakenPaid(s: State, t: State, op: Op)
    requires op.Complete?
    requires s == if op.fetch.Some? then Dequeue(t, op.now, op.fetch.value - op.now, op.publish) else t
    ensures Paid(t, s)
  {
    if op.fetch.Some? {
      DequeuePaid(t, op.now, op.fetch.value - op.now, op.publish);
    }
  }

  lemma SettlePaid(s: State, op: Op)
    requires op.Complete?
    ensures Paid(s, Settle(s, op))
  {
    FinalizePaid(s, op.id, Outcome(true, op.value, op.progress), op.now, op.keep, op.publish);
    ThenTakenPaid(Finished(s, op), Closing(s, op), op);
    PaidChain(s, Closing(s, op), Finished(s, op));
    UnblockPaid(Finished(s, op), op.id, op.order);
    PaidChain(s, Finished(s, op), UnblockAll(Finished(s, op), op.id, op.order));
  }

  lemma {:induction false} BuryParentsPaid(s: State, ps: seq<Id>, now: int)
    ensures Paid(s, BuryParents(s, ps, now))
    decreases |ps|
  {
    if ps == [] {
    } else {
      assert Paid(s, BuryParent(s, ps[0], now));
      BuryParentsPaid(BuryParent(s, ps[0], now), ps[1..], now);
      PaidChain(s, BuryParent(s, ps[0], now), BuryParents(BuryParent(s, ps[0], now), ps[1..], now));
    }
  }

  lemma KillPaid(s: State, id: Id, job: Job, reason: string, now: int, keep: int, publish: bool)
    ensures Paid(s, Kill(s, id, job, reason, now, keep, publish))
  {
    var o := Outcome(false, reason, "");
    var s1 := Finalize(s, id, o, now, keep, publish);
    FinalizePaid(s, id, o, now, keep, publish);
    var s2 := s1.(dlq := s1.dlq[id := job.(status := Dead, failedReason := Some(reason))]);
    assert Paid(s1, s2);
    PaidChain(s, s1, s2);
    BuryParentsPaid(s2, job.parents, now);
    PaidChain(s, s2, BuryParents(s2, job.parents, now));
  }

  lemma DependPaid(s: State, id: Id, job: Job)
    ensures Paid(s, AddDependent(s, id, job))
  {
    if id !in s.vault {
      if CountPending(s, job.parents) == 0 {
        QueuedPaid(s, AddDependent(s, id, job), id, job.priority, job.timestamp);
      } else {
        ParkPaid(s, id, job, CountPending(s, job.parents));
      }
    }
  }

  lemma ParkPaid(s: State, id: Id, job: Job, pending: nat)
    ensures Paid(s, Link(Park(s, id, job, pending), id, job.parents))
  {
  }

  /** A batch queues no more than the immediate items it creates. */
  lemma {:induction false} AddManyOwes(s: State, items: seq<BulkItem>)
    ensures AddBulk(s, items).tokens == s.tokens
    ensures Backlog(AddBulk(s, items)) <= Backlog(s) + OwnTally(items, BulkCreated(s, items), false)
    decreases |items|
  {
    if items == [] {
    } else {
      AddOneOwes(s, items[0]);
      AddManyOwes(AddBulkOne(s, items[0]), items[1..]);
    }
  }

  lemma AddOneOwes(s: State, item: BulkItem)
    ensures AddBulkOne(s, item).tokens == s.tokens
    ensures Backlog(AddBulkOne(s, item)) <= Backlog(s) + if item.id in s.vault || item.later then 0 else 1
  {
    if item.id !in s.vault && !item.later {
      EnqueueAddsOne(s, item.id, item.job.priority, item.job.timestamp);
    }
  }

  lemma DrainHasNone(s: State)
    ensures Backlog(Drain(s)) == 0
  {
  }

  lemma PostponePaid(s: State, id: Id, at: int)
    requires id in s.vault
    ensures Paid(s, Postpone(s, id, s.vault[id], at))
  {
  }

  lemma PostponingPaid(s: State, op: Op)
    requires op.Fail? && Postpones(s, op.id, op.fatal)
    ensures Paid(s, Effect(s, op))
  {
    PostponePaid(s, op.id, op.at);
  }

  lemma KillingPaid(s: State, op: Op)
    requires op.Fail? && op.id in s.vault && !Postpones(s, op.id, op.fatal)
    ensures Paid(s, Effect(s, op))
  {
    EffectOfKilling(s, op);
    KillPaid(s, op.id, s.vault[op.id], op.reason, op.now, op.keep, op.publish);
  }

  lemma EffectOfKilling(s: State, op: Op)
    requires op.Fail? && op.id in s.vault && !Postpones(s, op.id, op.fatal)
    ensures Effect(s, op) == Kill(s, op.id, s.vault[op.id], op.reason, op.now, op.keep, op.publish)
  {
  }

  lemma FailPaid(s: State, op: Op)
    requires op.Fail?
    ensures Paid(s, Effect(s, op))
  {
    if op.id in s.vault {
      if Postpones(s, op.id, op.fatal) {
        PostponingPaid(s, op);
      } else {
        KillingPaid(s, op);
      }
    }
  }

  lemma PromotedPaid(s: State, now: int)
    ensures Paid(s, Promote(s, now))
  {
    PromotePaid(s, ByScore(Between(s.delayed, 0, now)));
  }

  lemma HealPaid(s: State)
    ensures Paid(s, Heal(s))
  {
  }

  lemma SweptPaid(s: State, now: int)
    ensures Paid(s, Recover(s, now))
  {
    var t := RecoverAll(s, ByScore(Between(s.active, 0, now)), now);
    RecoverPaid(s, ByScore(Between(s.active, 0, now)), now);
    HealPaid(t);
    PaidChain(s, t, Heal(t));
  }

  lemma ZombiePaid(s: State, id: Id, now: int, timeout: int)
    ensures Paid(s, BuryZombie(s, id, now, timeout))
  {
  }

  lemma RetriedPaid(s: State, id: Id, job: Job)
    ensures Paid(s, RetryJob(s, id, job))
  {
    PurgeShrinks(s.waiting, id);
    MapPut(s.prioritized, id, Score(job.priority, job.timestamp));
  }

  lemma RetryPaid(s: State, id: Id)
    ensures Paid(s, Effect(s, RetryDead(id)))
  {
    if id in s.dlq {
      RetriedPaid(s, id, Revived(s, id));
    }
  }

  lemma CheckPaid(w: System, id: Id)
    requires Right(w)
    ensures Paid(w.s, Effect(w.s, CheckUnblocked(id)))
  {
    PromoteIfUnblockedIsIdle(w.s, w.awaits, id, StoredPriority(w.s, id), StoredTimestamp(w.s, id));
  }

  lemma AddPaid(s: State, id: Id, job: Job)
    ensures Paid(s, AddJob(s, id, job))
  {
    if id !in s.vault {
      QueuedPaid(s, AddJob(s, id, job), id, job.priority, job.timestamp);
    }
  }

  lemma AddDelayedPaid(s: State, id: Id, job: Job, at: int)
    ensures Paid(s, AddDelayed(s, id, job, at))
  {
  }

  lemma RenewPaid(s: State, id: Id, now: int, lease: int)
    requires id in s.vault
    ensures Paid(s, Renew(s, id, now, lease))
  {
  }

  lemma DeletionPaid(s: State, ids: seq<Id>)
    ensures Paid(s, Deletion(s, ids))
  {
    DeleteAllGone(Cut(s, Members(ids)), ids);
    DeletionTokens(Cut(s, Members(ids)), ids);
    KeepShrinks(s.waiting, Members(ids));
  }

  lemma {:induction false} KeepShrinks(w: seq<Id>, gone: set<Id>)
    ensures |Keep(w, gone)| <= |w|
  {
    if w == [] {
    } else {
      KeepShrinks(w[1..], gone);
    }
  }

  lemma {:induction false} DeletionTokens(s: State, ids: seq<Id>)
    ensures DeleteAll(s, ids).tokens == s.tokens
    decreases |ids|
  {
    if ids == [] {
    } else {
      DeletionTokens(DeleteOne(s, ids[0]), ids[1..]);
    }
  }

  lemma ProducerPaid(s: State, op: Op)
    requires op.Add? || op.AddLater? || op.Depend? || op.PushTokens?
    ensures Paid(s, Effect(s, op))
  {
    if op.Add? {
      AddPaid(s, op.id, op.job);
    } else if op.AddLater? {
      AddDelayedPaid(s, op.id, op.job, op.at);
    } else if op.Depend? {
      DependPaid(s, op.id, op.job);
    }
  }

  lemma WorkerPaid(s: State, op: Op)
    requires op.Take? || op.TakeMany? || op.RenewLease? || op.Complete? || op.Fail?
    ensures Paid(s, Effect(s, op))
  {
    if op.Take? {
      DequeuePaid(s, op.now, op.lock, op.publish);
    } else if op.TakeMany? {
      BatchPaid(s, op.n, op.lease);
    } else if op.RenewLease? {
      if op.id in s.vault {
        RenewPaid(s, op.id, op.now, op.lease);
      }
    } else if op.Complete? {
      SettlePaid(s, op);
    } else {
      FailPaid(s, op);
    }
  }

  lemma UpkeepPaid(w: System, op: Op)
    requires Right(w)
    requires op.PromoteDue? || op.RecoverExpired? || op.SweepZombie? || op.RetryDead? || op.CheckUnblocked?
    ensures Paid(w.s, Effect(w.s, op))
  {
    if op.PromoteDue? {
      PromotedPaid(w.s, op.now);
    } else if op.RecoverExpired? {
      SweptPaid(w.s, op.now);
    } else if op.SweepZombie? {
      ZombiePaid(w.s, op.id, op.now, op.timeout);
    } else if op.RetryDead? {
      RetryPaid(w.s, op.id);
    } else {
      CheckPaid(w, op.id);
    }
  }

  /** Every operation but addBulk, which leaves the tokens to its caller, and drain,
      which empties the queue, pays for the work it queues. */
  lemma EffectPaid(w: System, op: Op)
    requires Right(w) && !op.AddMany? && !op.DrainAll?
    ensures Paid(w.s, Effect(w.s, op))
  {
    if op.Add? || op.AddLater? || op.Depend? || op.PushTokens? {
      ProducerPaid(w.s, op);
    } else if op.Take? || op.TakeMany? || op.RenewLease? || op.Complete? || op.Fail? {
      WorkerPaid(w.s, op);
    } else if op.Delete? {
      DeletionPaid(w.s, op.ids);
    } else if op.CleanUp? {
    } else {
      UpkeepPaid(w, op);
    }
  }
}
